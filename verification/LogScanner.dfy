// scripts/earn-competitor-census.mjs: a resumable scan of the chain's logs into an append-only evidence file, with
// a cursor that notices reorganisations between runs.
module LogScanner {
  import opened Evm

  /** A transaction in the scanned log stream; `cycle` says whether its receipt reviews into a record. */
  datatype Tx = Tx(id: nat, cycle: bool)

  datatype Block = Block(time: nat, salt: nat, txs: seq<Tx>)

  /** A block hash commits to every block before it, so it is the chain up to and including the block. */
  type Chain = seq<Block>

  /** Evidence: the transaction's id, and the block it was seen in. */
  datatype Record = Record(evidenceId: nat, block: nat, blockHash: Chain)

  datatype Cursor = Cursor(block: nat, hash: Chain)

  datatype ScanState = ScanState(start: nat, next: nat, cursor: Option<Cursor>, chunk: nat)

  datatype Config = Config(chunkBlocks: nat, safeLag: nat) {
    predicate Valid() { 100 <= chunkBlocks <= 50_000 && 2 <= safeLag <= 100 }
  }

  const MIN_CHUNK: nat := 100
  const REWIND_BLOCKS: nat := 20

  // ---- what the chain says ----

  predicate Holds(b: Block, id: nat) {
    exists i :: 0 <= i < |b.txs| && b.txs[i].id == id && b.txs[i].cycle
  }

  predicate Canonical(chain: Chain, r: Record) {
    r.block < |chain| && r.blockHash == chain[..r.block + 1] && Holds(chain[r.block], r.evidenceId)
  }

  /** A transaction is in one place only. */
  predicate ChainOk(chain: Chain) {
    && chain != []
    && forall b, c, i, j ::
         (0 <= b < |chain| && 0 <= c < |chain| && 0 <= i < |chain[b].txs| && 0 <= j < |chain[c].txs|
          && chain[b].txs[i].id == chain[c].txs[j].id)
         ==> b == c && i == j
  }

  lemma OneRecordPerId(chain: Chain, r: Record, q: Record)
    requires ChainOk(chain) && Canonical(chain, r) && Canonical(chain, q) && r.evidenceId == q.evidenceId
    ensures r == q
  {
    var i :| 0 <= i < |chain[r.block].txs| && chain[r.block].txs[i].id == r.evidenceId && chain[r.block].txs[i].cycle;
    var j :| 0 <= j < |chain[q.block].txs| && chain[q.block].txs[j].id == q.evidenceId && chain[q.block].txs[j].cycle;
  }

  /** The stored records of blocks `[lo, hi)` are exactly the chain's. */
  ghost predicate Covered(chain: Chain, events: seq<Record>, lo: nat, hi: nat) {
    forall r: Record :: lo <= r.block < hi ==> (r in events <==> Canonical(chain, r))
  }

  ghost predicate DistinctIds(events: seq<Record>) {
    forall i, j :: 0 <= i < j < |events| ==> events[i].evidenceId != events[j].evidenceId
  }

  lemma SameIdSameRecord(events: seq<Record>, r: Record, q: Record)
    requires DistinctIds(events) && r in events && q in events && r.evidenceId == q.evidenceId
    ensures r == q
  {
  }

  /** Chains that share a prefix have the same records in it. */
  lemma CanonicalInPrefix(chain: Chain, other: Chain, k: nat, r: Record)
    requires k <= |chain| && k <= |other| && chain[..k] == other[..k] && r.block < k
    ensures Canonical(chain, r) <==> Canonical(other, r)
  {
    assert chain[..r.block + 1] == chain[..k][..r.block + 1] == other[..r.block + 1];
    assert chain[r.block] == chain[..k][r.block] == other[r.block];
  }

  lemma CoveredByPrefix(chain: Chain, other: Chain, events: seq<Record>, lo: nat, k: nat)
    requires k <= |chain| && k <= |other| && chain[..k] == other[..k] && Covered(chain, events, lo, k)
    ensures Covered(other, events, lo, k)
  {
    forall r: Record | lo <= r.block < k ensures r in events <==> Canonical(other, r) {
      CanonicalInPrefix(chain, other, k, r);
    }
  }

  // ---- reviewing a range ----

  datatype Found = Found(block: nat, tx: Tx)

  /** The transactions with logs in blocks `[lo, hi)`, in order. */
  function Logs(chain: Chain, lo: nat, hi: nat): seq<Found>
    requires hi <= |chain|
    decreases hi
  {
    if hi <= lo then [] else Logs(chain, lo, hi - 1) + InBlock(hi - 1, chain[hi - 1].txs)
  }

  function InBlock(block: nat, txs: seq<Tx>): (r: seq<Found>)
    ensures |r| == |txs| && forall i :: 0 <= i < |r| ==> r[i] == Found(block, txs[i])
  {
    if txs == [] then [] else InBlock(block, txs[..|txs| - 1]) + [Found(block, txs[|txs| - 1])]
  }

  /** `reviewedReceiptRecord`: a record when the receipt holds a closed cycle. */
  function ReviewedRecord(chain: Chain, f: Found): Option<Record> {
    if f.tx.cycle && f.block < |chain| then Some(Record(f.tx.id, f.block, chain[..f.block + 1])) else None
  }

  predicate Known(events: seq<Record>, id: nat) {
    exists i :: 0 <= i < |events| && events[i].evidenceId == id
  }

  /** The evidence file after reviewing `found` in order, skipping evidence that is already known. */
  function Review(events: seq<Record>, chain: Chain, found: seq<Found>): seq<Record> {
    if found == [] then events
    else
      var before := Review(events, chain, found[..|found| - 1]);
      match ReviewedRecord(chain, found[|found| - 1])
      case None => before
      case Some(r) => if Known(before, r.evidenceId) then before else before + [r]
  }

  ghost predicate FromFound(chain: Chain, found: seq<Found>, r: Record) {
    exists k :: 0 <= k < |found| && ReviewedRecord(chain, found[k]) == Some(r)
  }

  ghost predicate DistinctFound(found: seq<Found>) {
    forall i, j :: 0 <= i < j < |found| ==> found[i].tx.id != found[j].tx.id
  }

  lemma {:induction false} ReviewHas(events: seq<Record>, chain: Chain, found: seq<Found>, r: Record)
    requires DistinctFound(found)
    ensures r in Review(events, chain, found)
            <==> r in events || (FromFound(chain, found, r) && !Known(events, r.evidenceId))
    ensures Known(events, r.evidenceId) ==> Known(Review(events, chain, found), r.evidenceId)
  {
    if found != [] {
      var n := |found| - 1;
      var front := found[..n];
      ReviewHas(events, chain, front, r);
      var before := Review(events, chain, front);
      FromFoundSplit(chain, found, r);
      match ReviewedRecord(chain, found[n]) {
        case None =>
        case Some(q) =>
          KnownExactly(events, chain, front, q.evidenceId);
          if !Known(before, q.evidenceId) {
            assert forall i :: 0 <= i < |before| ==> (before + [q])[i] == before[i];
          }
      }
    }
  }

  lemma FromFoundSplit(chain: Chain, found: seq<Found>, r: Record)
    requires found != []
    ensures FromFound(chain, found, r)
            <==> FromFound(chain, found[..|found| - 1], r) || ReviewedRecord(chain, found[|found| - 1]) == Some(r)
  {
    var n := |found| - 1;
    if FromFound(chain, found, r) {
      var k :| 0 <= k < |found| && ReviewedRecord(chain, found[k]) == Some(r);
      if k < n {
        assert found[..n][k] == found[k];
      }
    }
    if FromFound(chain, found[..n], r) {
      var k :| 0 <= k < n && ReviewedRecord(chain, found[..n][k]) == Some(r);
      assert found[k] == found[..n][k];
    }
  }

  /** After a review an id is known if it was before or was found in a record. */
  lemma {:induction false} KnownExactly(events: seq<Record>, chain: Chain, found: seq<Found>, id: nat)
    ensures Known(Review(events, chain, found), id)
            <==> Known(events, id)
                 || exists k :: 0 <= k < |found| && ReviewedRecord(chain, found[k]).Some? && found[k].tx.id == id
  {
    if found != [] {
      var n := |found| - 1;
      KnownExactly(events, chain, found[..n], id);
      var before := Review(events, chain, found[..n]);
      assert forall k :: 0 <= k < n ==> found[..n][k] == found[k];
      match ReviewedRecord(chain, found[n]) {
        case None =>
        case Some(q) =>
          var after := Review(events, chain, found);
          if !Known(before, q.evidenceId) {
            assert after == before + [q];
            assert after[|before|].evidenceId == q.evidenceId;
            assert forall i :: 0 <= i < |before| ==> after[i] == before[i];
          }
      }
    }
  }

  lemma {:induction false} ReviewKeepsDistinct(events: seq<Record>, chain: Chain, found: seq<Found>)
    requires DistinctIds(events)
    ensures DistinctIds(Review(events, chain, found))
    ensures events <= Review(events, chain, found)
  {
    if found != [] {
      ReviewKeepsDistinct(events, chain, found[..|found| - 1]);
    }
  }

  // ---- the logs of a range are its canonical records ----

  lemma {:induction false} LogsWithin(chain: Chain, lo: nat, hi: nat, k: nat)
    requires hi <= |chain| && k < |Logs(chain, lo, hi)|
    ensures var f := Logs(chain, lo, hi)[k]; lo <= f.block < hi && f.tx in chain[f.block].txs
  {
    var front := Logs(chain, lo, hi - 1);
    if k < |front| {
      LogsWithin(chain, lo, hi - 1, k);
    } else {
      assert Logs(chain, lo, hi)[k] == InBlock(hi - 1, chain[hi - 1].txs)[k - |front|];
    }
  }

  lemma {:induction false} LogsAreDistinct(chain: Chain, lo: nat, hi: nat)
    requires ChainOk(chain) && hi <= |chain|
    ensures DistinctFound(Logs(chain, lo, hi))
  {
    if lo < hi {
      LogsAreDistinct(chain, lo, hi - 1);
      var front, last := Logs(chain, lo, hi - 1), InBlock(hi - 1, chain[hi - 1].txs);
      var found := Logs(chain, lo, hi);
      forall i, j | 0 <= i < j < |found| ensures found[i].tx.id != found[j].tx.id {
        if j >= |front| {
          assert found[j] == last[j - |front|];
          if i < |front| {
            assert found[i] == front[i];
            LogsWithin(chain, lo, hi - 1, i);
          } else {
            assert found[i] == last[i - |front|];
          }
        }
      }
    }
  }

  lemma {:induction false} LogsHave(chain: Chain, lo: nat, hi: nat, b: nat, i: nat)
    requires lo <= b < hi <= |chain| && i < |chain[b].txs|
    ensures Found(b, chain[b].txs[i]) in Logs(chain, lo, hi)
  {
    var front, last := Logs(chain, lo, hi - 1), InBlock(hi - 1, chain[hi - 1].txs);
    assert Logs(chain, lo, hi) == front + last;
    if b == hi - 1 {
      assert last[i] == Found(b, chain[b].txs[i]);
    } else {
      LogsHave(chain, lo, hi - 1, b, i);
    }
  }

  lemma FoundIsCanonical(chain: Chain, lo: nat, hi: nat, r: Record)
    requires hi <= |chain|
    ensures FromFound(chain, Logs(chain, lo, hi), r) <==> Canonical(chain, r) && lo <= r.block < hi
  {
    var found := Logs(chain, lo, hi);
    if FromFound(chain, found, r) {
      var k :| 0 <= k < |found| && ReviewedRecord(chain, found[k]) == Some(r);
      LogsWithin(chain, lo, hi, k);
      var i :| 0 <= i < |chain[r.block].txs| && chain[r.block].txs[i] == found[k].tx;
    }
    if Canonical(chain, r) && lo <= r.block < hi {
      CanonicalIsFound(chain, lo, hi, r);
    }
  }

  lemma CanonicalIsFound(chain: Chain, lo: nat, hi: nat, r: Record)
    requires hi <= |chain| && Canonical(chain, r) && lo <= r.block < hi
    ensures FromFound(chain, Logs(chain, lo, hi), r)
  {
    var found := Logs(chain, lo, hi);
    var i :| 0 <= i < |chain[r.block].txs| && chain[r.block].txs[i].id == r.evidenceId && chain[r.block].txs[i].cycle;
    LogsHave(chain, lo, hi, r.block, i);
    var k :| 0 <= k < |found| && found[k] == Found(r.block, chain[r.block].txs[i]);
    assert ReviewedRecord(chain, found[k]) == Some(r);
  }

  /** Reviewing part of a range adds records of that range only. */
  lemma {:induction false} ReviewAddsWithin(events: seq<Record>, chain: Chain, lo: nat, hi: nat, k: nat, r: Record)
    requires hi <= |chain| && k <= |Logs(chain, lo, hi)| && r in Review(events, chain, Logs(chain, lo, hi)[..k])
    ensures r in events || lo <= r.block < hi
  {
    var found := Logs(chain, lo, hi);
    if k > 0 {
      LogsWithin(chain, lo, hi, k - 1);
      assert found[..k][..k - 1] == found[..k - 1];
      if r in Review(events, chain, found[..k - 1]) {
        ReviewAddsWithin(events, chain, lo, hi, k - 1, r);
      }
    }
  }

  /** Every stored record in the way of a range is canonical: those of its blocks, and those that carry the id of
      one of its records. */
  ghost predicate NothingStale(chain: Chain, events: seq<Record>, lo: nat, hi: nat) {
    forall e: Record :: e in events && (lo <= e.block < hi || InTheWay(chain, e.evidenceId, lo, hi)) ==>
      Canonical(chain, e)
  }

  ghost predicate InTheWay(chain: Chain, id: nat, lo: nat, hi: nat) {
    exists q: Record :: q.evidenceId == id && lo <= q.block < hi && Canonical(chain, q)
  }

  /** Reviewing the next range extends coverage over it exactly when no stale record stands in its way. */
  lemma ReviewCoversExactlyWhen(chain: Chain, events: seq<Record>, start: nat, from: nat, to: nat)
    requires ChainOk(chain) && start <= from <= to <= |chain|
    requires DistinctIds(events) && Covered(chain, events, start, from)
    ensures Covered(chain, Review(events, chain, Logs(chain, from, to)), start, to)
            <==> NothingStale(chain, events, from, to)
  {
    var after := Review(events, chain, Logs(chain, from, to));
    LogsAreDistinct(chain, from, to);
    if NothingStale(chain, events, from, to) {
      forall r: Record | start <= r.block < to ensures r in after <==> Canonical(chain, r) {
        ReviewHas(events, chain, Logs(chain, from, to), r);
        FoundIsCanonical(chain, from, to, r);
        if from <= r.block && Canonical(chain, r) && Known(events, r.evidenceId) {
          var i :| 0 <= i < |events| && events[i].evidenceId == r.evidenceId;
          assert InTheWay(chain, events[i].evidenceId, from, to) && events[i] in events;
          OneRecordPerId(chain, events[i], r);
        }
      }
    }
    if Covered(chain, after, start, to) {
      forall e: Record | e in events && (from <= e.block < to || InTheWay(chain, e.evidenceId, from, to))
        ensures Canonical(chain, e)
      {
        StaleSpoils(chain, events, start, from, to, e);
      }
    }
  }

  lemma StaleSpoils(chain: Chain, events: seq<Record>, start: nat, from: nat, to: nat, e: Record)
    requires ChainOk(chain) && start <= from <= to <= |chain| && DistinctIds(events)
    requires Covered(chain, Review(events, chain, Logs(chain, from, to)), start, to)
    requires e in events && (from <= e.block < to || InTheWay(chain, e.evidenceId, from, to))
    ensures Canonical(chain, e)
  {
    LogsAreDistinct(chain, from, to);
    ReviewHas(events, chain, Logs(chain, from, to), e);
    if !(from <= e.block < to) {
      var q: Record :| q.evidenceId == e.evidenceId && from <= q.block < to && Canonical(chain, q);
      ReviewHas(events, chain, Logs(chain, from, to), q);
      var i :| 0 <= i < |events| && events[i] == e;
      assert Known(events, q.evidenceId);
      SameIdSameRecord(events, e, q);
    }
  }
}
