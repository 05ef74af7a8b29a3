// What the ledgers say about the executors' balances: an exact account for every run, and exact conservation for
// every run in which nothing was given up on overtaken readings.
module LedgerKeeping {
  import opened Evm
  import opened AuditLog
  import opened WalletChain
  import opened Reconciliation
  import opened MutationJournal

  // ---- the account of any safe state ----

  /** Mined profit of the mutation in flight that its lane's ledger does not have yet. */
  function Unrecorded(s: State, lane: Lane): nat {
    var all := Successes(s.chain.blocks, lane);
    if Open(s.audit).Some? && Open(s.audit).value.hash.Some?
       && !Recorded(s.Ledger(lane), Open(s.audit).value.hash.value)
    then GrossOf(all, Open(s.audit).value.hash.value) else 0
  }

  predicate IsLost(log: Log, ledger: seq<Entry>, e: Entry) {
    !Recorded(ledger, e.hash) && EndedAs(log, MutationAbandoned, e.hash)
  }

  /** Profit of mutations that were given up although they were executed. */
  function LostOf(log: Log, ledger: seq<Entry>, entries: seq<Entry>): nat {
    if entries == [] then 0
    else
      var n := |entries| - 1;
      LostOf(log, ledger, entries[..n]) + if IsLost(log, ledger, entries[n]) then entries[n].gross else 0
  }

  function Lost(s: State, lane: Lane): nat {
    LostOf(s.audit, s.Ledger(lane), Successes(s.chain.blocks, lane))
  }

  function OnlyRecorded(ledger: seq<Entry>, entries: seq<Entry>): (r: seq<Entry>)
    ensures forall e :: e in r <==> e in entries && Recorded(ledger, e.hash)
  {
    if entries == [] then []
    else
      var n := |entries| - 1;
      OnlyRecorded(ledger, entries[..n]) + if Recorded(ledger, entries[n].hash) then [entries[n]] else []
  }

  ghost predicate DistinctHashes(entries: seq<Entry>) {
    forall i, j :: 0 <= i < j < |entries| ==> entries[i].hash != entries[j].hash
  }

  lemma {:induction false} OnlyRecordedIsDistinct(ledger: seq<Entry>, entries: seq<Entry>)
    requires DistinctHashes(entries)
    ensures DistinctHashes(OnlyRecorded(ledger, entries))
  {
    if entries != [] {
      var n := |entries| - 1;
      OnlyRecordedIsDistinct(ledger, entries[..n]);
      var front := OnlyRecorded(ledger, entries[..n]);
      forall i | 0 <= i < |front| ensures front[i].hash != entries[n].hash {
        assert front[i] in front;
      }
    }
  }

  lemma {:induction false} SumConcat(a: seq<Entry>, b: seq<Entry>)
    ensures SumGross(a + b) == SumGross(a) + SumGross(b)
  {
    if b == [] {
      assert a + b == a;
    } else {
      var n := |b| - 1;
      SumConcat(a, b[..n]);
      assert (a + b)[..|a| + n] == a + b[..n];
    }
  }

  lemma SumMiddle(a: seq<Entry>, e: Entry, b: seq<Entry>)
    ensures SumGross(a + [e] + b) == SumGross(a + b) + e.gross
  {
    SumSnoc(a, e);
    SumConcat(a + [e], b);
    SumConcat(a, b);
  }

  lemma CutAt(b: seq<Entry>, k: nat)
    requires k < |b|
    ensures b == b[..k] + [b[k]] + b[k + 1..]
  {
  }

  /** Lists of distinct mutations with the same entries have the same sum. */
  lemma {:induction false} SameSum(a: seq<Entry>, b: seq<Entry>)
    requires DistinctHashes(a) && DistinctHashes(b) && forall e :: e in a <==> e in b
    ensures SumGross(a) == SumGross(b)
    decreases |a|
  {
    if a == [] {
      if b != [] {
        FirstIsIn(b);
      }
    } else {
      var n := |a| - 1;
      assert a[n] in b;
      var k :| 0 <= k < |b| && b[k] == a[n];
      CutAt(b, k);
      SumMiddle(b[..k], b[k], b[k + 1..]);
      forall e ensures e in a[..n] <==> e in b[..k] + b[k + 1..] {
        WithoutOne(a, n, e);
        WithoutOne(b, k, e);
      }
      SameSum(a[..n], b[..k] + b[k + 1..]);
    }
  }

  lemma FirstIsIn(entries: seq<Entry>)
    requires entries != []
    ensures entries[0] in entries
  {
  }

  /** Removing one entry of a list of distinct mutations removes that entry and no other. */
  lemma WithoutOne(a: seq<Entry>, k: nat, e: Entry)
    requires DistinctHashes(a) && k < |a|
    ensures e in a[..k] + a[k + 1..] <==> e in a && e != a[k]
    ensures k == |a| - 1 ==> a[..k] + a[k + 1..] == a[..k]
  {
    if e in a && e != a[k] {
      var i :| 0 <= i < |a| && a[i] == e;
      if i < k {
        assert a[..k][i] == e;
      } else {
        assert a[k + 1..][i - k - 1] == e;
      }
    }
  }

  /** Every execution is recorded, in flight, or was given up. */
  lemma EveryExecutionIsAccounted(setup: Setup, s: State, lane: Lane, k: nat)
    requires Safe(setup, s) && k < |Successes(s.chain.blocks, lane)|
    ensures var hash := Successes(s.chain.blocks, lane)[k].hash;
            Recorded(s.Ledger(lane), hash) || IsOpen(s.audit, hash) || EndedAs(s.audit, MutationAbandoned, hash)
  {
    var hash := Successes(s.chain.blocks, lane)[k].hash;
    var i := EntryMined(s.chain.blocks, lane, k);
    assert Minable(setup, s.chain.blocks[..i], s.chain.blocks[i], s.sent);
    SignedIsOpenOrClosed(s.audit, hash);
    if !IsOpen(s.audit, hash) {
      var c :| 0 <= c < |s.audit| && Closes(s.audit[c], hash);
      if s.audit[c].event == MutationReverted {
        var j :| 0 <= j < s.chain.final && MinedAt(s.chain.blocks, j, hash.bytes, None);
        MinedOnce(setup, s.chain, s.sent, i, j);
      }
      assert EndedAs(s.audit, s.audit[c].event, hash);
    }
  }

  lemma OpenIsNotGivenUp(log: Log, hash: Hash)
    requires Disciplined(log) && IsOpen(log, hash)
    ensures !EndedAs(log, MutationAbandoned, hash)
  {
    forall c | 0 <= c < |log| ensures !Closes(log[c], hash) {
      OpenIsNotClosed(log, c);
    }
  }

  /** The sum of distinct, accounted executions, by account. */
  lemma {:induction false} SumByAccount(log: Log, ledger: seq<Entry>, entries: seq<Entry>)
    requires Disciplined(log) && DistinctHashes(entries)
    requires forall e :: e in entries ==>
               Recorded(ledger, e.hash) || IsOpen(log, e.hash) || EndedAs(log, MutationAbandoned, e.hash)
    ensures SumGross(entries) == SumGross(OnlyRecorded(ledger, entries)) + LostOf(log, ledger, entries)
                                 + if Open(log).Some? && Open(log).value.hash.Some?
                                      && !Recorded(ledger, Open(log).value.hash.value)
                                   then GrossOf(entries, Open(log).value.hash.value) else 0
  {
    if entries != [] {
      var n := |entries| - 1;
      var e := entries[n];
      SumByAccount(log, ledger, entries[..n]);
      if Recorded(ledger, e.hash) {
        SumSnoc(OnlyRecorded(ledger, entries[..n]), e);
      } else {
        assert OnlyRecorded(ledger, entries) == OnlyRecorded(ledger, entries[..n]);
        if IsOpen(log, e.hash) {
          OpenIsNotGivenUp(log, e.hash);
          assert !Recorded(entries[..n], e.hash);
          GrossOfUnrecorded(entries[..n], e.hash);
        }
      }
    }
  }

  lemma SettledIsListed(setup: Setup, s: State, lane: Lane, e: Entry)
    requires EntryHolds(s.chain, lane, e) && s.chain.final <= |s.chain.blocks|
    ensures e in Successes(s.chain.blocks, lane)
  {
    var i :| 0 <= i < s.chain.final && MinedAt(s.chain.blocks, i, e.hash.bytes, Some(e.gross));
    var k := ExecutionListed(s.chain.blocks, i, e.hash.bytes);
  }

  /** The recorded executions are the ledger, whatever the order. */
  lemma RecordedAreTheLedger(setup: Setup, s: State, lane: Lane)
    requires Safe(setup, s)
    ensures SumGross(OnlyRecorded(s.Ledger(lane), Successes(s.chain.blocks, lane))) == SumGross(s.Ledger(lane))
  {
    var ledger, all := s.Ledger(lane), Successes(s.chain.blocks, lane);
    assert LedgerHolds(s.chain, lane, ledger);
    SuccessesAreDistinct(setup, s, lane);
    OnlyRecordedIsDistinct(ledger, all);
    forall e ensures e in ledger <==> e in OnlyRecorded(ledger, all) {
      if e in ledger {
        var k :| 0 <= k < |ledger| && ledger[k] == e;
        assert EntryHolds(s.chain, lane, ledger[k]);
        SettledIsListed(setup, s, lane, e);
      }
      if e in OnlyRecorded(ledger, all) {
        var k :| 0 <= k < |ledger| && ledger[k].hash == e.hash;
        assert EntryHolds(s.chain, lane, ledger[k]);
        SettledIsListed(setup, s, lane, ledger[k]);
        var i :| 0 <= i < |all| && all[i] == e;
        var j :| 0 <= j < |all| && all[j] == ledger[k];
        assert i == j;
      }
    }
    SameSum(ledger, OnlyRecorded(ledger, all));
  }

  lemma SuccessesAreDistinct(setup: Setup, s: State, lane: Lane)
    requires Safe(setup, s)
    ensures DistinctHashes(Successes(s.chain.blocks, lane))
  {
    var all := Successes(s.chain.blocks, lane);
    forall i, j | 0 <= i < j < |all| ensures all[i].hash != all[j].hash {
      EntriesDistinct(setup, s.chain, s.sent, lane, i, j);
    }
  }

  /** The account of any safe state: an executor's balance is its seed, what the ledger has recorded, the profit of
      the one open mutation if that is mined and not yet recorded, and what was given up although executed. */
  lemma BalanceIsAccounted(setup: Setup, s: State, lane: Lane)
    requires Safe(setup, s)
    ensures Balance(setup, s.chain.blocks, lane)
            == setup.Seed(lane) + SumGross(s.Ledger(lane)) + Unrecorded(s, lane) + Lost(s, lane)
  {
    var all := Successes(s.chain.blocks, lane);
    BalanceIsSum(setup, s.chain.blocks, lane);
    SuccessesAreDistinct(setup, s, lane);
    forall e | e in all
      ensures Recorded(s.Ledger(lane), e.hash) || IsOpen(s.audit, e.hash) || EndedAs(s.audit, MutationAbandoned, e.hash)
    {
      var k :| 0 <= k < |all| && all[k] == e;
      EveryExecutionIsAccounted(setup, s, lane, k);
    }
    SumByAccount(s.audit, s.Ledger(lane), all);
    RecordedAreTheLedger(setup, s, lane);
  }

  /** Giving up moves what was mined and not yet recorded from the open account to the lost one. */
  lemma GivingUpLoses(setup: Setup, s: State, lane: Lane)
    requires Safe(setup, s) && Enabled(setup, s, Ends(MutationAbandoned))
    ensures var after := Apply(setup, s, Ends(MutationAbandoned));
            Lost(after, lane) == Lost(s, lane) + Unrecorded(s, lane) && Unrecorded(after, lane) == 0
  {
    StepKeepsSafe(setup, s, Ends(MutationAbandoned));
    var after := Apply(setup, s, Ends(MutationAbandoned));
    OpenAfter(s.audit, Record(MutationAbandoned, Open(s.audit).value.hash, None));
    BalanceIsAccounted(setup, s, lane);
    BalanceIsAccounted(setup, after, lane);
  }

  // ---- runs whose readers never all jumped over one height ----

  /** All of `all` but at most one last execution, the open mutation's, is in the ledger. */
  predicate Lags(log: Log, ledger: seq<Entry>, all: seq<Entry>) {
    all == ledger || (|all| == |ledger| + 1 && ledger <= all && IsOpen(log, all[|ledger|].hash))
  }

  /** A lane's ledger is its settled executions in order, lagging by at most one. */
  ghost predicate LedgerOk(s: State, lane: Lane)
    requires s.chain.final <= |s.chain.blocks|
  {
    var ledger := s.Ledger(lane);
    && ledger <= Successes(s.chain.blocks[..s.chain.final], lane)
    && Lags(s.audit, ledger, Successes(s.chain.blocks, lane))
    && forall k :: 0 <= k < |ledger| ==>
         EndedAs(s.audit, MutationEffect, ledger[k].hash) || IsOpen(s.audit, ledger[k].hash)
  }

  /** The open plan remembers the balance its execution started from. */
  predicate PlanOk(setup: Setup, s: State) {
    Open(s.audit).Some? && Open(s.audit).value.plan.Some? ==>
      var plan := Open(s.audit).value.plan.value;
      var ledger := s.Ledger(plan.lane);
      plan.executorBaseBefore + GrossOf(ledger, Keccak(RawOf(plan))) == setup.Seed(plan.lane) + SumGross(ledger)
  }

  /** What was given up is dead, and so is what may be given up next. */
  ghost predicate GivenUpIsDead(s: State) {
    && (forall i :: 0 <= i < |s.audit| && s.audit[i].event == MutationAbandoned && s.audit[i].hash.Some?
          ==> Dead(s.chain, s.audit[i].hash.value.bytes))
    && (s.memory.mayGiveUp.Some? ==> Dead(s.chain, s.memory.mayGiveUp.value.bytes))
  }

  /** A balance read with nothing in flight is still the balance. */
  predicate ReadingHolds(setup: Setup, s: State) {
    s.memory.read.Some? && Open(s.audit) == None ==>
      var reading := s.memory.read.value;
      reading.balance == setup.Seed(reading.lane) + SumGross(s.Ledger(reading.lane))
  }

  ghost predicate Inv(setup: Setup, s: State) {
    && Safe(setup, s)
    && GivenUpIsDead(s)
    && (forall lane: Lane :: LedgerOk(s, lane))
    && PlanOk(setup, s)
    && ReadingHolds(setup, s)
  }

  lemma InitInv(setup: Setup, s: State)
    requires Init(setup, s)
    ensures Inv(setup, s)
  {
    forall lane: Lane ensures Successes(s.chain.blocks, lane) == [] {
      NothingMined(setup, s.chain, lane, |s.chain.blocks|);
      assert s.chain.blocks[..|s.chain.blocks|] == s.chain.blocks;
    }
  }

  lemma {:induction false} NothingMined(setup: Setup, c: Chain, lane: Lane, k: nat)
    requires ChainOk(setup, c, {}) && k <= |c.blocks|
    ensures Successes(c.blocks[..k], lane) == []
  {
    if k > 0 {
      NothingMined(setup, c, lane, k - 1);
      assert c.blocks[..k][..k - 1] == c.blocks[..k - 1];
      assert Minable(setup, c.blocks[..k - 1], c.blocks[k - 1], {});
    }
  }

  // ---- the chain moves ----

  /** Only the mutation in flight can be executed by a new block. */
  lemma NewExecutionIsOpen(setup: Setup, s: State, move: Move)
    requires Safe(setup, s) && MayMove(setup, s.chain, s.sent, move)
    requires move.block.receipt.Some? && move.block.receipt.value.gross.Some?
    ensures IsOpen(s.audit, Keccak(move.block.receipt.value.raw))
    ensures forall i :: 0 <= i < move.keep ==> !ExecutedAt(s.chain.blocks, i, move.block.receipt.value.raw)
  {
    var raw := move.block.receipt.value.raw;
    SignedIsOpenOrClosed(s.audit, Keccak(raw));
    if !IsOpen(s.audit, Keccak(raw)) {
      var i :| 0 <= i < |s.audit| && Closes(s.audit[i], Keccak(raw));
      ClosedIsNotMinable(setup, s, s.audit[i].event, raw, move);
    }
    forall i | 0 <= i < move.keep && ExecutedAt(s.chain.blocks, i, raw) ensures false {
      MinedUsesNonce(setup, s.chain, s.sent, i, move.keep);
    }
  }

  lemma ClosedIsNotMinable(setup: Setup, s: State, event: Event, raw: Raw, move: Move)
    requires ChainOk(setup, s.chain, s.sent) && EndHolds(s.chain, event, raw)
    requires MayMove(setup, s.chain, s.sent, move)
    ensures move.block.receipt.Some? && move.block.receipt.value.raw == raw ==> move.block.receipt.value.gross.None?
  {
    match event
    case MutationEffect =>
      var i :| 0 <= i < s.chain.final && ExecutedAt(s.chain.blocks, i, raw);
      MinedUsesNonce(setup, s.chain, s.sent, i, move.keep);
    case MutationReverted =>
      SettledUsesNonce(setup, s.chain, s.sent, raw, None, move.keep);
    case MutationAbandoned =>
    case _ =>
  }

  /** What has settled stays settled. */
  lemma SettledGrows(setup: Setup, c: Chain, sent: set<Raw>, move: Move, lane: Lane)
    requires ChainOk(setup, c, sent) && MayMove(setup, c, sent, move)
    ensures var r := Moved(setup, c, move);
            r.final <= |r.blocks| && Successes(c.blocks[..c.final], lane) <= Successes(r.blocks[..r.final], lane)
  {
    var r := Moved(setup, c, move);
    MoveKeepsChain(setup, c, sent, move);
    assert r.blocks[..c.final] == r.blocks[..move.keep][..c.final] == c.blocks[..c.final];
    SuccessesGrow(r.blocks, lane, c.final, r.final);
  }

  /** The part of the chain that stays holds the ledger and at most the open execution. */
  lemma KeptLags(setup: Setup, s: State, move: Move, lane: Lane)
    requires Inv(setup, s) && MayMove(setup, s.chain, s.sent, move)
    ensures Lags(s.audit, s.Ledger(lane), Successes(s.chain.blocks[..move.keep], lane))
  {
    var blocks, keep := s.chain.blocks, move.keep;
    assert LedgerOk(s, lane);
    SuccessesGrow(blocks, lane, s.chain.final, keep);
    SuccessesGrow(blocks, lane, keep, |blocks|);
    assert blocks[..|blocks|] == blocks;
  }

  lemma MovedLags(setup: Setup, s: State, move: Move, lane: Lane)
    requires Inv(setup, s) && MayMove(setup, s.chain, s.sent, move)
    ensures Lags(s.audit, s.Ledger(lane), Successes(Moved(setup, s.chain, move).blocks, lane))
  {
    var blocks, keep, ledger := s.chain.blocks, move.keep, s.Ledger(lane);
    var kept := Successes(blocks[..keep], lane);
    KeptLags(setup, s, move, lane);
    assert Moved(setup, s.chain, move).blocks[..keep] == blocks[..keep];
    assert Successes(Moved(setup, s.chain, move).blocks, lane) == kept + SuccessOf(move.block, lane);
    if SucceedsIn(move.block, lane) {
      NewExecutionIsOpen(setup, s, move);
      if |kept| > |ledger| {
        var i := EntryMined(blocks[..keep], lane, |ledger|);
        assert ExecutedAt(blocks, i, kept[|ledger|].hash.bytes);
      }
      assert kept == ledger;
    } else {
      assert kept + SuccessOf(move.block, lane) == kept;
    }
  }

  lemma MoveKeepsLedger(setup: Setup, s: State, move: Move, lane: Lane)
    requires Inv(setup, s) && MayMove(setup, s.chain, s.sent, move)
    ensures Moved(setup, s.chain, move).final <= |Moved(setup, s.chain, move).blocks|
    ensures LedgerOk(s.(chain := Moved(setup, s.chain, move)), lane)
  {
    assert LedgerOk(s, lane);
    SettledGrows(setup, s.chain, s.sent, move, lane);
    MovedLags(setup, s, move, lane);
  }

  lemma MoveKeepsGivenUp(setup: Setup, s: State, move: Move)
    requires Inv(setup, s) && MayMove(setup, s.chain, s.sent, move)
    ensures GivenUpIsDead(s.(chain := Moved(setup, s.chain, move)))
  {
    forall i | 0 <= i < |s.audit| && s.audit[i].event == MutationAbandoned && s.audit[i].hash.Some?
      ensures Dead(Moved(setup, s.chain, move), s.audit[i].hash.value.bytes)
    {
      MoveKeepsDead(setup, s.chain, s.sent, move, s.audit[i].hash.value.bytes);
    }
    if s.memory.mayGiveUp.Some? {
      MoveKeepsDead(setup, s.chain, s.sent, move, s.memory.mayGiveUp.value.bytes);
    }
  }

  lemma MoveKeepsInv(setup: Setup, s: State, move: Move)
    requires Inv(setup, s) && MayMove(setup, s.chain, s.sent, move)
    ensures Inv(setup, s.(chain := Moved(setup, s.chain, move)))
  {
    MoveKeepsSafe(setup, s, move);
    MoveKeepsGivenUp(setup, s, move);
    forall lane: Lane ensures LedgerOk(s.(chain := Moved(setup, s.chain, move)), lane) {
      MoveKeepsLedger(setup, s, move, lane);
    }
  }

  // ---- appending a record ----

  lemma AppendKeepsLedger(s: State, r: Record, lane: Lane)
    requires s.chain.final <= |s.chain.blocks| && LedgerOk(s, lane)
    requires Lags(s.audit + [r], s.Ledger(lane), Successes(s.chain.blocks, lane))
    requires forall k :: 0 <= k < |s.Ledger(lane)| && IsOpen(s.audit, s.Ledger(lane)[k].hash) ==>
               IsOpen(s.audit + [r], s.Ledger(lane)[k].hash)
               || (r.event == MutationEffect && r.hash == Some(s.Ledger(lane)[k].hash))
    ensures LedgerOk(s.(audit := s.audit + [r]), lane)
  {
    var ledger := s.Ledger(lane);
    forall k | 0 <= k < |ledger|
      ensures EndedAs(s.audit + [r], MutationEffect, ledger[k].hash) || IsOpen(s.audit + [r], ledger[k].hash)
    {
      if EndedAs(s.audit, MutationEffect, ledger[k].hash) {
        EndedAfter(s.audit, r, MutationEffect, ledger[k].hash);
      } else if !IsOpen(s.audit + [r], ledger[k].hash) {
        assert (s.audit + [r])[|s.audit|] == r;
      }
    }
  }

  lemma EffectWasSigned(log: Log, hash: Hash)
    requires Disciplined(log) && EndedAs(log, MutationEffect, hash)
    ensures SignedIn(log, hash)
  {
    var c :| 0 <= c < |log| && log[c].event == MutationEffect && log[c].hash == Some(hash);
    TerminalFollowsSignature(log, c);
    var i :| 0 <= i < c && IsSigned(log[i]) && log[i].hash == log[c].hash;
  }

  /** With nothing in flight the balance is the seed and the ledger. */
  lemma ClosedBalance(setup: Setup, s: State, lane: Lane)
    requires Inv(setup, s) && Open(s.audit) == None
    ensures Balance(setup, s.chain.blocks, lane) == setup.Seed(lane) + SumGross(s.Ledger(lane))
  {
    assert LedgerOk(s, lane);
    BalanceIsSum(setup, s.chain.blocks, lane);
  }

  lemma NoteKeepsLedger(s: State, record: Record, lane: Lane)
    requires s.chain.final <= |s.chain.blocks| && LedgerOk(s, lane)
    requires record.event !in SIGNED_EVENTS && record.event !in TERMINAL_EVENTS
    ensures LedgerOk(s.(audit := s.audit + [record]), lane)
  {
    OpenAfter(s.audit, record);
    AppendKeepsLedger(s, record, lane);
  }

  lemma AppendKeepsGivenUp(s: State, r: Record, memory: Memory)
    requires GivenUpIsDead(s) && (memory == s.memory || memory == BLANK)
    requires r.event == MutationAbandoned && r.hash.Some? ==> Dead(s.chain, r.hash.value.bytes)
    ensures GivenUpIsDead(s.(audit := s.audit + [r], memory := memory))
  {
  }

  lemma NoteKeepsInv(setup: Setup, s: State, record: Record)
    requires Inv(setup, s) && Enabled(setup, s, Notes(record))
    ensures Inv(setup, Apply(setup, s, Notes(record)))
  {
    StepKeepsSafe(setup, s, Notes(record));
    AppendKeepsGivenUp(s, record, s.memory);
    forall lane: Lane ensures LedgerOk(s.(audit := s.audit + [record]), lane) {
      NoteKeepsLedger(s, record, lane);
    }
    OpenAfter(s.audit, record);
  }

  lemma SignKeepsLedger(setup: Setup, s: State, plan: Plan, lane: Lane)
    requires Inv(setup, s) && Enabled(setup, s, Signs(plan))
    ensures LedgerOk(s.(audit := s.audit + [SignedRecord(plan)]), lane)
  {
    assert LedgerOk(s, lane);
    OpenAfter(s.audit, SignedRecord(plan));
    AppendKeepsLedger(s, SignedRecord(plan), lane);
  }

  lemma NotYetRecorded(setup: Setup, s: State, lane: Lane, hash: Hash)
    requires Inv(setup, s) && Open(s.audit) == None && !SignedIn(s.audit, hash)
    ensures !Recorded(s.Ledger(lane), hash)
  {
    assert LedgerOk(s, lane);
    if Recorded(s.Ledger(lane), hash) {
      EffectWasSigned(s.audit, hash);
    }
  }

  lemma SignKeepsInv(setup: Setup, s: State, plan: Plan)
    requires Inv(setup, s) && Enabled(setup, s, Signs(plan))
    ensures Inv(setup, Apply(setup, s, Signs(plan)))
  {
    var r := SignedRecord(plan);
    StepKeepsSafe(setup, s, Signs(plan));
    AppendKeepsGivenUp(s, r, BLANK);
    OpenAfter(s.audit, r);
    forall lane: Lane ensures LedgerOk(Apply(setup, s, Signs(plan)), lane) {
      SignKeepsLedger(setup, s, plan, lane);
    }
    NotYetRecorded(setup, s, plan.lane, r.hash.value);
    GrossOfUnrecorded(s.Ledger(plan.lane), r.hash.value);
  }

  // ---- recording an execution ----

  /** Where a settled execution of the mutation in flight stands among its lane's executions. */
  lemma OpenExecutionAt(setup: Setup, s: State, hash: Hash, gross: nat) returns (k: nat)
    requires Inv(setup, s) && Settled(s.chain, hash.bytes, Some(gross))
    ensures var all := Successes(s.chain.blocks, hash.bytes.lane);
            var settled := Successes(s.chain.blocks[..s.chain.final], hash.bytes.lane);
            && settled <= all && k < |settled| && settled[k] == all[k] == Entry(hash, gross)
            && forall j :: 0 <= j < |all| && all[j].hash == hash ==> j == k
  {
    var lane, blocks, final := hash.bytes.lane, s.chain.blocks, s.chain.final;
    var i :| 0 <= i < final && MinedAt(blocks, i, hash.bytes, Some(gross));
    assert ExecutedAt(blocks[..final], i, hash.bytes);
    k := ExecutionListed(blocks[..final], i, hash.bytes);
    SuccessesGrow(blocks, lane, final, |blocks|);
    assert blocks[..|blocks|] == blocks;
    var all := Successes(blocks, lane);
    forall j | 0 <= j < |all| && all[j].hash == hash ensures j == k {
      if j < k {
        EntriesDistinct(setup, s.chain, s.sent, lane, j, k);
      } else if k < j {
        EntriesDistinct(setup, s.chain, s.sent, lane, k, j);
      }
    }
  }

  /** Either the ledger has it and lags behind nothing, or it is the one the ledger lags behind. */
  lemma OpenExecutionIsLast(setup: Setup, s: State, hash: Hash, gross: nat)
    requires Inv(setup, s) && IsOpen(s.audit, hash) && Settled(s.chain, hash.bytes, Some(gross))
    ensures var lane := hash.bytes.lane; var ledger := s.Ledger(lane); var all := Successes(s.chain.blocks, lane);
            if Recorded(ledger, hash) then all == ledger && GrossOf(ledger, hash) == gross
            else all == ledger + [Entry(hash, gross)] && all <= Successes(s.chain.blocks[..s.chain.final], lane)
  {
    var lane := hash.bytes.lane;
    var ledger, all := s.Ledger(lane), Successes(s.chain.blocks, lane);
    assert LedgerOk(s, lane);
    var k := OpenExecutionAt(setup, s, hash, gross);
    assert forall j :: 0 <= j < |ledger| ==> ledger[j] == all[j];
    if Recorded(ledger, hash) {
      var j := GrossOfRecorded(ledger, hash);
      assert all[j].hash == hash;
    }
  }

  /** The journal's own check never fires: the executor's balance is what the plan saw plus the profit. */
  lemma PostStateBalanceAgrees(setup: Setup, s: State, hash: Hash, gross: nat)
    requires Inv(setup, s) && IsOpen(s.audit, hash) && Settled(s.chain, hash.bytes, Some(gross))
    ensures Open(s.audit).value.plan.Some?
    ensures var plan := Open(s.audit).value.plan.value;
            plan.lane == hash.bytes.lane && Balance(setup, s.chain.blocks, plan.lane) == plan.executorBaseBefore + gross
  {
    OpenHasPlan(s);
    OpenExecutionIsLast(setup, s, hash, gross);
    var ledger := s.Ledger(hash.bytes.lane);
    BalanceIsSum(setup, s.chain.blocks, hash.bytes.lane);
    if !Recorded(ledger, hash) {
      GrossOfUnrecorded(ledger, hash);
      SumSnoc(ledger, Entry(hash, gross));
    }
  }

  /** Recording catches the ledger up with the chain. */
  lemma RecordingCatchesUp(setup: Setup, s: State, entry: Entry)
    requires Inv(setup, s) && Enabled(setup, s, Records(entry))
    ensures var lane := entry.hash.bytes.lane;
            AddEntry(s.Ledger(lane), entry) == Successes(s.chain.blocks, lane)
            && AddEntry(s.Ledger(lane), entry) <= Successes(s.chain.blocks[..s.chain.final], lane)
  {
    assert LedgerOk(s, entry.hash.bytes.lane);
    OpenExecutionIsLast(setup, s, entry.hash, entry.gross);
  }

  lemma RecordKeepsLedger(setup: Setup, s: State, entry: Entry)
    requires Inv(setup, s) && Enabled(setup, s, Records(entry))
    ensures LedgerOk(Apply(setup, s, Records(entry)), entry.hash.bytes.lane)
  {
    var lane := entry.hash.bytes.lane;
    RecordingCatchesUp(setup, s, entry);
    assert LedgerOk(s, lane);
    assert Apply(setup, s, Records(entry)).Ledger(lane) == AddEntry(s.Ledger(lane), entry);
  }

  lemma RecordKeepsPlan(setup: Setup, s: State, entry: Entry)
    requires Inv(setup, s) && Enabled(setup, s, Records(entry))
    ensures PlanOk(setup, Apply(setup, s, Records(entry)))
  {
    var ledger := s.Ledger(entry.hash.bytes.lane);
    OpenHasPlan(s);
    if !Recorded(ledger, entry.hash) {
      GrossOfUnrecorded(ledger, entry.hash);
      SumSnoc(ledger, entry);
      assert (ledger + [entry])[..|ledger|] == ledger;
    }
  }

  lemma RecordKeepsInv(setup: Setup, s: State, entry: Entry)
    requires Inv(setup, s) && Enabled(setup, s, Records(entry))
    ensures Inv(setup, Apply(setup, s, Records(entry)))
  {
    var after := Apply(setup, s, Records(entry));
    StepKeepsSafe(setup, s, Records(entry));
    RecordKeepsLedger(setup, s, entry);
    RecordKeepsPlan(setup, s, entry);
    forall lane: Lane ensures LedgerOk(after, lane) {
      if lane != entry.hash.bytes.lane {
        assert LedgerOk(s, lane) && after.Ledger(lane) == s.Ledger(lane);
      }
    }
  }

  // ---- closing ----

  /** A mutation that was not executed is nowhere among the executions. */
  lemma NotExecuted(setup: Setup, s: State, event: Event, hash: Hash, lane: Lane, k: nat)
    requires Inv(setup, s) && MayEnd(s, event, hash) && event != MutationEffect
    requires k < |Successes(s.chain.blocks, lane)|
    ensures Successes(s.chain.blocks, lane)[k].hash != hash
  {
    var i := EntryMined(s.chain.blocks, lane, k);
    assert event == MutationAbandoned ==> Dead(s.chain, hash.bytes);
    if event == MutationReverted && Successes(s.chain.blocks, lane)[k].hash == hash {
      var j :| 0 <= j < s.chain.final && MinedAt(s.chain.blocks, j, hash.bytes, None);
      MinedOnce(setup, s.chain, s.sent, i, j);
    }
  }

  /** When a mutation may be closed, no lane lags any more. */
  lemma ClosingCatchesUp(setup: Setup, s: State, event: Event, hash: Hash, lane: Lane)
    requires Inv(setup, s) && IsOpen(s.audit, hash) && MayEnd(s, event, hash)
    ensures Successes(s.chain.blocks, lane) == s.Ledger(lane)
    ensures event != MutationEffect ==> !Recorded(s.Ledger(lane), hash)
  {
    var ledger, all := s.Ledger(lane), Successes(s.chain.blocks, lane);
    assert LedgerOk(s, lane);
    if event == MutationEffect {
      RecordedIsSettled(setup, s, hash);
      OpenExecutionIsLast(setup, s, hash, GrossOf(s.Ledger(hash.bytes.lane), hash));
      if |all| > |ledger| {
        var i := EntryMined(s.chain.blocks, lane, |ledger|);
      }
    } else {
      if |all| > |ledger| {
        NotExecuted(setup, s, event, hash, lane, |ledger|);
      }
      forall k | 0 <= k < |ledger| ensures ledger[k].hash != hash {
        assert ledger[k] == all[k];
        NotExecuted(setup, s, event, hash, lane, k);
      }
    }
  }

  lemma EndKeepsLedger(setup: Setup, s: State, event: Event, hash: Hash, lane: Lane)
    requires Inv(setup, s) && IsOpen(s.audit, hash) && MayEnd(s, event, hash)
    ensures LedgerOk(s.(audit := s.audit + [Record(event, Some(hash), None)]), lane)
  {
    assert LedgerOk(s, lane);
    ClosingCatchesUp(setup, s, event, hash, lane);
    AppendKeepsLedger(s, Record(event, Some(hash), None), lane);
  }

  lemma EndKeepsGivenUp(setup: Setup, s: State, event: Event, hash: Hash)
    requires Inv(setup, s) && IsOpen(s.audit, hash) && MayEnd(s, event, hash)
    ensures GivenUpIsDead(s.(audit := s.audit + [Record(event, Some(hash), None)], memory := BLANK))
  {
    AppendKeepsGivenUp(s, Record(event, Some(hash), None), BLANK);
  }

  lemma EndKeepsLedgers(setup: Setup, s: State, event: Event, hash: Hash)
    requires Inv(setup, s) && IsOpen(s.audit, hash) && MayEnd(s, event, hash)
    ensures forall lane: Lane ::
              LedgerOk(s.(audit := s.audit + [Record(event, Some(hash), None)], memory := BLANK), lane)
  {
    var appended := s.(audit := s.audit + [Record(event, Some(hash), None)]);
    forall lane: Lane ensures LedgerOk(appended, lane) {
      EndKeepsLedger(setup, s, event, hash, lane);
    }
    LedgersUntouched(appended, appended.(memory := BLANK));
  }

  lemma EndKeepsInv(setup: Setup, s: State, event: Event)
    requires Inv(setup, s) && Enabled(setup, s, Ends(event))
    ensures Inv(setup, Apply(setup, s, Ends(event)))
  {
    var hash := Open(s.audit).value.hash.value;
    StepKeepsSafe(setup, s, Ends(event));
    EndKeepsGivenUp(setup, s, event, hash);
    EndKeepsLedgers(setup, s, event, hash);
    OpenAfter(s.audit, Record(event, Some(hash), None));
  }

  // ---- reading ----

  /** Nothing the ledgers are judged by changes. */
  lemma LedgersUntouched(s: State, after: State)
    requires s.chain.final <= |s.chain.blocks| && forall lane: Lane :: LedgerOk(s, lane)
    requires after.chain == s.chain && after.audit == s.audit && after.usdg == s.usdg && after.weth == s.weth
    ensures forall lane: Lane :: LedgerOk(after, lane)
  {
    forall lane: Lane ensures LedgerOk(after, lane) {
      assert LedgerOk(s, lane) && after.Ledger(lane) == s.Ledger(lane);
    }
  }

  lemma ReadKeepsInv(setup: Setup, s: State, lane: Lane)
    requires Inv(setup, s) && Enabled(setup, s, Reads(lane))
    ensures Inv(setup, Apply(setup, s, Reads(lane)))
  {
    StepKeepsSafe(setup, s, Reads(lane));
    ClosedBalance(setup, s, lane);
    LedgersUntouched(s, Apply(setup, s, Reads(lane)));
  }

  lemma JudgeKeepsInv(setup: Setup, s: State, views: seq<View>)
    requires Inv(setup, s) && Enabled(setup, s, Judges(views)) && !Overtaken(views)
    ensures Inv(setup, Apply(setup, s, Judges(views)))
  {
    StepKeepsSafe(setup, s, Judges(views));
    AbandonmentIsRight(setup, s.chain, s.sent, Open(s.audit).value.hash.value.bytes, views);
    LedgersUntouched(s, Apply(setup, s, Judges(views)));
  }

  lemma OutsideKeepsInv(setup: Setup, s: State, step: Step)
    requires Inv(setup, s) && Enabled(setup, s, step) && (step.Crashes? || step.Persists? || step.Sends?)
    ensures Inv(setup, Apply(setup, s, step))
  {
    StepKeepsSafe(setup, s, step);
    LedgersUntouched(s, Apply(setup, s, step));
  }

  // ---- whole runs ----

  lemma StepKeepsInv(setup: Setup, s: State, step: Step)
    requires Inv(setup, s) && Enabled(setup, s, step) && Careful(step)
    ensures Inv(setup, Apply(setup, s, step))
  {
    match step
    case ChainMoves(move) => MoveKeepsInv(setup, s, move);
    case Crashes => OutsideKeepsInv(setup, s, step);
    case Notes(record) => NoteKeepsInv(setup, s, record);
    case Reads(lane) => ReadKeepsInv(setup, s, lane);
    case Persists(raw) => OutsideKeepsInv(setup, s, step);
    case Signs(plan) => SignKeepsInv(setup, s, plan);
    case Sends(raw) => OutsideKeepsInv(setup, s, step);
    case Records(entry) => RecordKeepsInv(setup, s, entry);
    case Judges(views) => JudgeKeepsInv(setup, s, views);
    case Ends(event) => EndKeepsInv(setup, s, event);
  }

  /** A run in which no mutation is judged on overtaken readings. */
  ghost predicate CarefulRun(setup: Setup, states: seq<State>) {
    && states != [] && Init(setup, states[0])
    && forall i :: 0 <= i < |states| - 1 ==> FollowsCarefully(setup, states[i], states[i + 1])
  }

  ghost predicate FollowsCarefully(setup: Setup, s: State, s': State) {
    0 < setup.finality && exists step :: Enabled(setup, s, step) && Careful(step) && s' == Apply(setup, s, step)
  }

  lemma {:induction false} CarefulRunKeepsInv(setup: Setup, states: seq<State>, i: nat)
    requires CarefulRun(setup, states) && i < |states|
    ensures Inv(setup, states[i])
  {
    if i == 0 {
      InitInv(setup, states[0]);
    } else {
      CarefulRunKeepsInv(setup, states, i - 1);
      assert FollowsCarefully(setup, states[i - 1], states[i - 1 + 1]);
      var step :| Enabled(setup, states[i - 1], step) && Careful(step)
                  && states[i] == Apply(setup, states[i - 1], step);
      StepKeepsInv(setup, states[i - 1], step);
    }
  }

  lemma {:induction false} NothingLost(setup: Setup, s: State, lane: Lane, n: nat)
    requires Inv(setup, s) && n <= |Successes(s.chain.blocks, lane)|
    ensures LostOf(s.audit, s.Ledger(lane), Successes(s.chain.blocks, lane)[..n]) == 0
  {
    if n > 0 {
      var all := Successes(s.chain.blocks, lane);
      NothingLost(setup, s, lane, n - 1);
      assert all[..n][..n - 1] == all[..n - 1];
      var i := EntryMined(s.chain.blocks, lane, n - 1);
    }
  }

  /** Conservation: an executor's balance is its seed, what the ledger has recorded, and the profit of the one
      open mutation if that is mined and not yet recorded. */
  lemma LedgerConserves(setup: Setup, s: State, lane: Lane)
    requires Inv(setup, s)
    ensures Balance(setup, s.chain.blocks, lane) == setup.Seed(lane) + SumGross(s.Ledger(lane)) + Unrecorded(s, lane)
  {
    BalanceIsAccounted(setup, s, lane);
    NothingLost(setup, s, lane, |Successes(s.chain.blocks, lane)|);
    var all := Successes(s.chain.blocks, lane);
    assert all[..|all|] == all;
  }
}
