// The write-ahead journal as a step system: every read it relies on, every durable write, every broadcast and every
// move of the chain is one step. A crash forgets what was read and nothing else, and may come between any two steps.
module MutationJournal {
  import opened Evm
  import opened AuditLog
  import opened WalletChain
  import opened Reconciliation

  datatype Reading = Reading(lane: Lane, balance: nat)

  /** What a process has in its head: an executor's balance read before planning, and the open mutation if the
      readers' answers allow giving it up. */
  datatype Memory = Memory(read: Option<Reading>, mayGiveUp: Option<Hash>)

  const BLANK := Memory(None, None)

  /** What survives a crash, the world outside, and the memory of the running process. `sent` is every byte string
      ever broadcast. */
  datatype State = State(
    audit: Log,
    raws: map<Hash, Raw>,
    usdg: seq<Entry>,
    weth: seq<Entry>,
    chain: Chain,
    sent: set<Raw>,
    memory: Memory)
  {
    function Ledger(lane: Lane): seq<Entry> { if lane == UsdgLane then usdg else weth }

    function WithLedger(lane: Lane, entries: seq<Entry>): State {
      if lane == UsdgLane then this.(usdg := entries) else this.(weth := entries)
    }
  }

  predicate IsOpen(log: Log, hash: Hash) {
    Open(log).Some? && Open(log).value.hash == Some(hash)
  }

  predicate Recorded(ledger: seq<Entry>, hash: Hash) {
    exists k :: 0 <= k < |ledger| && ledger[k].hash == hash
  }

  function AddEntry(ledger: seq<Entry>, e: Entry): seq<Entry> {
    if Recorded(ledger, e.hash) then ledger else ledger + [e]
  }

  // ---- steps ----

  datatype Step =
    | ChainMoves(move: Move)
    | Crashes
    | Notes(record: Record)
    | Reads(lane: Lane)
    | Persists(raw: Raw)
    | Signs(plan: Plan)
    | Sends(raw: Raw)
    | Records(entry: Entry)
    | Judges(views: seq<View>)
    | Ends(event: Event)

  predicate SettledSuccess(c: Chain, raw: Raw) {
    exists i :: 0 <= i < c.final && ExecutedAt(c.blocks, i, raw)
  }

  /** What the code checks before it closes a mutation in some way. */
  predicate MayEnd(s: State, event: Event, hash: Hash) {
    match event
    case MutationEffect => Recorded(s.Ledger(hash.bytes.lane), hash)
    case MutationReverted => Settled(s.chain, hash.bytes, None)
    case MutationAbandoned => s.memory.mayGiveUp == Some(hash)
    case _ => false
  }

  predicate Enabled(setup: Setup, s: State, step: Step) {
    match step
    case ChainMoves(move) => MayMove(setup, s.chain, s.sent, move)
    case Crashes => true
    case Notes(record) => record.event !in SIGNED_EVENTS && record.event !in TERMINAL_EVENTS
    case Reads(lane) => Open(s.audit) == None
    case Persists(raw) => true
    case Signs(plan) =>
      && Open(s.audit) == None && PlannedIn(s.audit, plan)
      && Keccak(RawOf(plan)) in s.raws && !SignedIn(s.audit, Keccak(RawOf(plan)))
      && s.memory.read == Some(Reading(plan.lane, plan.executorBaseBefore))
    case Sends(raw) => IsOpen(s.audit, Keccak(raw)) && Keccak(raw) in s.raws && s.raws[Keccak(raw)] == raw
    case Records(entry) => IsOpen(s.audit, entry.hash) && Settled(s.chain, entry.hash.bytes, Some(entry.gross))
    case Judges(views) =>
      && Open(s.audit).Some? && Open(s.audit).value.hash.Some?
      && (forall v :: v in views ==> ViewOf(v, s.chain.blocks))
      && var raw := Open(s.audit).value.hash.value.bytes;
      && AbandonmentAllowed(raw, ObserveAll(setup, s.chain.blocks, raw, views))
    case Ends(event) => Open(s.audit).Some? && Open(s.audit).value.hash.Some?
                        && MayEnd(s, event, Open(s.audit).value.hash.value)
  }

  function SignedRecord(plan: Plan): Record {
    Record(MutationSigned, Some(Keccak(RawOf(plan))), Some(plan))
  }

  function Apply(setup: Setup, s: State, step: Step): State
    requires Enabled(setup, s, step) && 0 < setup.finality
  {
    match step
    case ChainMoves(move) => s.(chain := Moved(setup, s.chain, move))
    case Crashes => s.(memory := BLANK)
    case Notes(record) => s.(audit := s.audit + [record])
    case Reads(lane) => s.(memory := s.memory.(read := Some(Reading(lane, Balance(setup, s.chain.blocks, lane)))))
    case Persists(raw) => s.(raws := s.raws[Keccak(raw) := raw])
    case Signs(plan) => s.(audit := s.audit + [SignedRecord(plan)], memory := BLANK)
    case Sends(raw) => s.(sent := s.sent + {raw})
    case Records(entry) =>
      s.WithLedger(entry.hash.bytes.lane, AddEntry(s.Ledger(entry.hash.bytes.lane), entry))
    case Judges(views) => s.(memory := s.memory.(mayGiveUp := Open(s.audit).value.hash))
    case Ends(event) => s.(audit := s.audit + [Record(event, Open(s.audit).value.hash, None)], memory := BLANK)
  }

  /** The one thing the code leaves to luck: readings on which a mutation may be given up, of which no height was
      jumped over by every reader. */
  predicate Careful(step: Step) {
    step.Judges? ==> !Overtaken(step.views)
  }

  // ---- what holds in every run ----

  /** Too late to be executed by any block still to come. */
  predicate Expired(c: Chain, raw: Raw) {
    c.blocks != [] && raw.deadline < Clock(c)
  }

  /** What closing a mutation says about the chain, whatever the readers saw. */
  predicate EndHolds(c: Chain, event: Event, raw: Raw) {
    match event
    case MutationEffect => SettledSuccess(c, raw)
    case MutationReverted => Settled(c, raw, None)
    case MutationAbandoned => Expired(c, raw)
    case _ => false
  }

  ghost predicate EndsHold(s: State) {
    forall i :: 0 <= i < |s.audit| && s.audit[i].event in TERMINAL_EVENTS ==>
      s.audit[i].hash.Some? && EndHolds(s.chain, s.audit[i].event, s.audit[i].hash.value.bytes)
  }

  /** Bytes are durable before they are journaled, and journaled before they are sent. */
  ghost predicate WritesAhead(s: State) {
    && (forall hash :: hash in s.raws ==> Keccak(s.raws[hash]) == hash)
    && (forall i :: 0 <= i < |s.audit| && IsSigned(s.audit[i]) ==> s.audit[i].hash.value in s.raws)
    && (forall raw :: raw in s.sent ==> SignedIn(s.audit, Keccak(raw)))
  }

  predicate EndedAs(log: Log, event: Event, hash: Hash) {
    exists i :: 0 <= i < |log| && log[i].event == event && log[i].hash == Some(hash)
  }

  /** An entry stands for one settled execution of the lane, with the profit it made. */
  predicate EntryHolds(c: Chain, lane: Lane, e: Entry) {
    e.hash.bytes.lane == lane && Settled(c, e.hash.bytes, Some(e.gross))
  }

  ghost predicate LedgerHolds(c: Chain, lane: Lane, ledger: seq<Entry>) {
    && (forall k :: 0 <= k < |ledger| ==> EntryHolds(c, lane, ledger[k]))
    && (forall k, l :: 0 <= k < l < |ledger| ==> ledger[k].hash != ledger[l].hash)
  }

  /** What was closed as executed is in its ledger. */
  ghost predicate EffectsRecorded(s: State) {
    forall hash :: EndedAs(s.audit, MutationEffect, hash) ==> Recorded(s.Ledger(hash.bytes.lane), hash)
  }

  /** The journal's safety invariant. It needs nothing of the order in which readers look things up. */
  ghost predicate Safe(setup: Setup, s: State) {
    && ChainOk(setup, s.chain, s.sent)
    && Disciplined(s.audit)
    && WritesAhead(s)
    && EndsHold(s)
    && LedgerHolds(s.chain, UsdgLane, s.usdg) && LedgerHolds(s.chain, WethLane, s.weth)
    && EffectsRecorded(s)
    && (s.memory.mayGiveUp.Some? ==> Expired(s.chain, s.memory.mayGiveUp.value.bytes))
  }

  ghost predicate Init(setup: Setup, s: State) {
    && 0 < setup.finality
    && s.audit == [] && s.raws == map[] && s.usdg == [] && s.weth == [] && s.sent == {} && s.memory == BLANK
    && ChainOk(setup, s.chain, {})
  }

  lemma InitIsSafe(setup: Setup, s: State)
    requires Init(setup, s)
    ensures Safe(setup, s)
  {
  }

  // ---- appending to the log ----

  lemma OpenAfter(log: Log, r: Record)
    ensures Open(log + [r]) == if IsSigned(r) then Some(r)
                               else if Open(log).Some? && Open(log).value.hash.Some?
                                       && Closes(r, Open(log).value.hash.value) then None
                               else Open(log)
  {
    assert (log + [r])[..|log|] == log;
  }

  lemma AppendDisciplined(log: Log, r: Record)
    requires Disciplined(log) && MayFollow(log, r)
    ensures Disciplined(log + [r])
  {
    assert (log + [r])[..|log|] == log;
  }

  lemma SignedAfter(log: Log, r: Record, hash: Hash)
    requires SignedIn(log, hash)
    ensures SignedIn(log + [r], hash)
  {
    var i :| 0 <= i < |log| && IsSigned(log[i]) && log[i].hash.value == hash;
    assert (log + [r])[i] == log[i];
  }

  lemma EndedAfter(log: Log, r: Record, event: Event, hash: Hash)
    ensures EndedAs(log + [r], event, hash) <==> EndedAs(log, event, hash) || (r.event == event && r.hash == Some(hash))
  {
    if EndedAs(log, event, hash) {
      var i :| 0 <= i < |log| && log[i].event == event && log[i].hash == Some(hash);
      assert (log + [r])[i] == log[i];
    }
    assert (log + [r])[|log|] == r;
  }

  lemma AppendWritesAhead(s: State, r: Record)
    requires WritesAhead(s) && (IsSigned(r) ==> r.hash.value in s.raws)
    ensures WritesAhead(s.(audit := s.audit + [r]))
  {
    forall raw | raw in s.sent ensures SignedIn(s.audit + [r], Keccak(raw)) {
      SignedAfter(s.audit, r, Keccak(raw));
    }
  }

  /** What appending a record takes to stay safe. */
  lemma AppendKeepsSafe(setup: Setup, s: State, r: Record, memory: Memory)
    requires Safe(setup, s) && MayFollow(s.audit, r) && (IsSigned(r) ==> r.hash.value in s.raws)
    requires r.event in TERMINAL_EVENTS ==> r.hash.Some? && EndHolds(s.chain, r.event, r.hash.value.bytes)
    requires r.event == MutationEffect ==> Recorded(s.Ledger(r.hash.value.bytes.lane), r.hash.value)
    requires memory == BLANK || memory == s.memory
    ensures Safe(setup, s.(audit := s.audit + [r], memory := memory))
  {
    var after := s.(audit := s.audit + [r], memory := memory);
    AppendDisciplined(s.audit, r);
    AppendWritesAhead(s, r);
    forall hash | EndedAs(after.audit, MutationEffect, hash) ensures Recorded(after.Ledger(hash.bytes.lane), hash) {
      EndedAfter(s.audit, r, MutationEffect, hash);
    }
  }

  // ---- every step is safe ----

  lemma MoveKeepsEnd(setup: Setup, c: Chain, sent: set<Raw>, move: Move, event: Event, raw: Raw)
    requires ChainOk(setup, c, sent) && MayMove(setup, c, sent, move) && EndHolds(c, event, raw)
    ensures EndHolds(Moved(setup, c, move), event, raw)
  {
    match event
    case MutationEffect =>
      var i :| 0 <= i < c.final && ExecutedAt(c.blocks, i, raw);
      assert MinedAt(c.blocks, i, raw, c.blocks[i].receipt.value.gross);
      MoveKeepsSettled(setup, c, sent, move, raw, c.blocks[i].receipt.value.gross);
      var j :| 0 <= j < Moved(setup, c, move).final
               && MinedAt(Moved(setup, c, move).blocks, j, raw, c.blocks[i].receipt.value.gross);
      assert ExecutedAt(Moved(setup, c, move).blocks, j, raw);
    case MutationReverted => MoveKeepsSettled(setup, c, sent, move, raw, None);
    case MutationAbandoned => MoveKeepsChain(setup, c, sent, move);
    case _ =>
  }

  lemma MoveKeepsEntries(setup: Setup, c: Chain, sent: set<Raw>, move: Move, lane: Lane, ledger: seq<Entry>)
    requires ChainOk(setup, c, sent) && MayMove(setup, c, sent, move) && LedgerHolds(c, lane, ledger)
    ensures LedgerHolds(Moved(setup, c, move), lane, ledger)
  {
    forall k | 0 <= k < |ledger| ensures EntryHolds(Moved(setup, c, move), lane, ledger[k]) {
      MoveKeepsSettled(setup, c, sent, move, ledger[k].hash.bytes, Some(ledger[k].gross));
    }
  }

  lemma MoveKeepsSafe(setup: Setup, s: State, move: Move)
    requires Safe(setup, s) && MayMove(setup, s.chain, s.sent, move)
    ensures Safe(setup, s.(chain := Moved(setup, s.chain, move)))
  {
    MoveKeepsChain(setup, s.chain, s.sent, move);
    forall i | 0 <= i < |s.audit| && s.audit[i].event in TERMINAL_EVENTS
      ensures EndHolds(Moved(setup, s.chain, move), s.audit[i].event, s.audit[i].hash.value.bytes)
    {
      MoveKeepsEnd(setup, s.chain, s.sent, move, s.audit[i].event, s.audit[i].hash.value.bytes);
    }
    MoveKeepsEntries(setup, s.chain, s.sent, move, UsdgLane, s.usdg);
    MoveKeepsEntries(setup, s.chain, s.sent, move, WethLane, s.weth);
  }

  lemma SendKeepsSafe(setup: Setup, s: State, raw: Raw)
    requires Safe(setup, s) && Enabled(setup, s, Sends(raw))
    ensures Safe(setup, s.(sent := s.sent + {raw}))
  {
    SendKeepsChain(setup, s.chain, s.sent, raw);
    var i := OpenIsUnresolved(s.audit);
    assert SignedIn(s.audit, Keccak(raw));
  }

  lemma RecordKeepsSafe(setup: Setup, s: State, entry: Entry)
    requires Safe(setup, s) && Enabled(setup, s, Records(entry))
    ensures Safe(setup, Apply(setup, s, Records(entry)))
  {
    var lane := entry.hash.bytes.lane;
    var ledger := AddEntry(s.Ledger(lane), entry);
    assert LedgerHolds(s.chain, lane, ledger) by {
      assert EntryHolds(s.chain, lane, entry);
    }
    var after := Apply(setup, s, Records(entry));
    forall hash | EndedAs(s.audit, MutationEffect, hash) ensures Recorded(after.Ledger(hash.bytes.lane), hash) {
      RecordedStays(s.Ledger(lane), entry, hash);
    }
  }

  lemma RecordedStays(ledger: seq<Entry>, entry: Entry, hash: Hash)
    ensures Recorded(ledger, hash) ==> Recorded(AddEntry(ledger, entry), hash)
    ensures Recorded(AddEntry(ledger, entry), entry.hash)
  {
    var after := AddEntry(ledger, entry);
    if Recorded(ledger, hash) {
      var k :| 0 <= k < |ledger| && ledger[k].hash == hash;
      assert after[k].hash == hash;
    }
    if !Recorded(ledger, entry.hash) {
      assert after[|ledger|] == entry;
    }
  }

  /** A recorded execution is settled, with the profit recorded for it. */
  lemma RecordedIsSettled(setup: Setup, s: State, hash: Hash)
    requires Safe(setup, s) && Recorded(s.Ledger(hash.bytes.lane), hash)
    ensures SettledSuccess(s.chain, hash.bytes)
    ensures Settled(s.chain, hash.bytes, Some(GrossOf(s.Ledger(hash.bytes.lane), hash)))
  {
    var lane := hash.bytes.lane;
    var ledger := s.Ledger(lane);
    var k := GrossOfRecorded(ledger, hash);
    assert EntryHolds(s.chain, lane, ledger[k]);
    var i :| 0 <= i < s.chain.final && MinedAt(s.chain.blocks, i, hash.bytes, Some(ledger[k].gross));
    assert ExecutedAt(s.chain.blocks, i, hash.bytes);
  }

  /** What the code checks before closing is enough for what closing says about the chain. */
  lemma EndIsTrue(setup: Setup, s: State, event: Event, hash: Hash)
    requires Safe(setup, s) && MayEnd(s, event, hash)
    ensures event in TERMINAL_EVENTS && EndHolds(s.chain, event, hash.bytes)
    ensures event == MutationEffect ==> Recorded(s.Ledger(hash.bytes.lane), hash)
  {
    if event == MutationEffect {
      RecordedIsSettled(setup, s, hash);
    }
  }

  lemma EndKeepsSafe(setup: Setup, s: State, event: Event)
    requires Safe(setup, s) && Enabled(setup, s, Ends(event))
    ensures Safe(setup, Apply(setup, s, Ends(event)))
  {
    EndIsTrue(setup, s, event, Open(s.audit).value.hash.value);
    AppendKeepsSafe(setup, s, Record(event, Open(s.audit).value.hash, None), BLANK);
  }

  lemma JudgeKeepsSafe(setup: Setup, s: State, views: seq<View>)
    requires Safe(setup, s) && Enabled(setup, s, Judges(views))
    ensures Safe(setup, Apply(setup, s, Judges(views)))
  {
    AbandonedHasExpired(setup, s.chain, s.sent, Open(s.audit).value.hash.value.bytes, views);
  }

  /** Every step the code can take keeps the journal safe, giving up on overtaken readings included. */
  lemma StepKeepsSafe(setup: Setup, s: State, step: Step)
    requires Safe(setup, s) && Enabled(setup, s, step)
    ensures Safe(setup, Apply(setup, s, step))
  {
    match step
    case ChainMoves(move) => MoveKeepsSafe(setup, s, move);
    case Crashes =>
    case Notes(record) => AppendKeepsSafe(setup, s, record, s.memory);
    case Reads(lane) =>
    case Persists(raw) =>
    case Signs(plan) => AppendKeepsSafe(setup, s, SignedRecord(plan), BLANK);
    case Sends(raw) => SendKeepsSafe(setup, s, raw);
    case Records(entry) => RecordKeepsSafe(setup, s, entry);
    case Judges(views) => JudgeKeepsSafe(setup, s, views);
    case Ends(event) => EndKeepsSafe(setup, s, event);
  }

  // ---- ledgers and executions ----

  /** The raw bytes behind the open record. */
  lemma OpenHasPlan(s: State)
    requires Disciplined(s.audit) && Open(s.audit).Some?
    ensures var r := Open(s.audit).value;
            r.hash.Some? && r.plan.Some? && r.hash.value == Keccak(RawOf(r.plan.value)) && IsSigned(r)
  {
    var i := OpenIsUnresolved(s.audit);
    SignedIsPlanned(s.audit, i);
  }

  /** Entries with the same hash are the same entry. */
  lemma EntriesDistinct(setup: Setup, c: Chain, sent: set<Raw>, lane: Lane, i: nat, j: nat)
    requires ChainOk(setup, c, sent)
    requires i < j < |Successes(c.blocks, lane)|
    ensures Successes(c.blocks, lane)[i].hash != Successes(c.blocks, lane)[j].hash
  {
    assert c.blocks[..|c.blocks|] == c.blocks;
    DistinctUpTo(setup, c, sent, lane, |c.blocks|, i, j);
  }

  lemma {:induction false} DistinctUpTo(setup: Setup, c: Chain, sent: set<Raw>, lane: Lane, n: nat, i: nat, j: nat)
    requires ChainOk(setup, c, sent) && n <= |c.blocks|
    requires i < j < |Successes(c.blocks[..n], lane)|
    ensures Successes(c.blocks[..n], lane)[i].hash != Successes(c.blocks[..n], lane)[j].hash
  {
    assert c.blocks[..n][..n - 1] == c.blocks[..n - 1];
    if j < |Successes(c.blocks[..n - 1], lane)| {
      DistinctUpTo(setup, c, sent, lane, n - 1, i, j);
    } else {
      LastIsNew(setup, c, sent, lane, n - 1, i);
    }
  }

  /** The execution in block `n` is none of those before it. */
  lemma LastIsNew(setup: Setup, c: Chain, sent: set<Raw>, lane: Lane, n: nat, i: nat)
    requires ChainOk(setup, c, sent) && n < |c.blocks| && SucceedsIn(c.blocks[n], lane)
    requires i < |Successes(c.blocks[..n], lane)|
    ensures Successes(c.blocks[..n], lane)[i].hash != Keccak(c.blocks[n].receipt.value.raw)
  {
    var b := SuccessInChain(c.blocks[..n], lane, i);
    if c.blocks[b].receipt.value.raw == c.blocks[n].receipt.value.raw {
      MinedOnce(setup, c, sent, b, n);
    }
  }

  /** Where an entry was mined. */
  lemma EntryMined(blocks: Blocks, lane: Lane, k: nat) returns (i: nat)
    requires k < |Successes(blocks, lane)|
    ensures i < |blocks| && ExecutedAt(blocks, i, Successes(blocks, lane)[k].hash.bytes)
    ensures MinedAt(blocks, i, Successes(blocks, lane)[k].hash.bytes, Some(Successes(blocks, lane)[k].gross))
    ensures Successes(blocks, lane)[k].hash.bytes.lane == lane
  {
    i := SuccessInChain(blocks, lane, k);
  }

  /** An execution is among its lane's successes. */
  lemma ExecutionListed(blocks: Blocks, i: nat, raw: Raw) returns (k: nat)
    requires i < |blocks| && ExecutedAt(blocks, i, raw)
    ensures k < |Successes(blocks, raw.lane)|
    ensures Successes(blocks, raw.lane)[k] == Entry(Keccak(raw), blocks[i].receipt.value.gross.value)
  {
    SuccessListed(blocks, raw.lane, i);
    k :| 0 <= k < |Successes(blocks, raw.lane)|
         && Successes(blocks, raw.lane)[k] == Entry(Keccak(raw), blocks[i].receipt.value.gross.value);
  }

  /** What a ledger has recorded for a mutation. */
  function GrossOf(ledger: seq<Entry>, hash: Hash): nat {
    if ledger == [] then 0
    else if ledger[|ledger| - 1].hash == hash then ledger[|ledger| - 1].gross
    else GrossOf(ledger[..|ledger| - 1], hash)
  }

  lemma {:induction false} GrossOfUnrecorded(ledger: seq<Entry>, hash: Hash)
    requires !Recorded(ledger, hash)
    ensures GrossOf(ledger, hash) == 0
  {
    if ledger != [] {
      var n := |ledger| - 1;
      assert ledger[n].hash != hash;
      assert forall k :: 0 <= k < n ==> ledger[..n][k] == ledger[k];
      GrossOfUnrecorded(ledger[..n], hash);
    }
  }

  lemma {:induction false} GrossOfRecorded(ledger: seq<Entry>, hash: Hash) returns (k: nat)
    requires Recorded(ledger, hash)
    ensures k < |ledger| && ledger[k] == Entry(hash, GrossOf(ledger, hash))
  {
    var n := |ledger| - 1;
    if ledger[n].hash == hash {
      k := n;
    } else {
      var j :| 0 <= j < |ledger| && ledger[j].hash == hash;
      assert ledger[..n][j].hash == hash;
      k := GrossOfRecorded(ledger[..n], hash);
    }
  }


  // ---- whole runs ----

  ghost predicate Follows(setup: Setup, s: State, s': State) {
    0 < setup.finality && exists step :: Enabled(setup, s, step) && s' == Apply(setup, s, step)
  }

  /** Every state of a run: `states[i + 1]` is `states[i]` after one step the code can take. */
  ghost predicate Run(setup: Setup, states: seq<State>) {
    && states != [] && Init(setup, states[0])
    && forall i :: 0 <= i < |states| - 1 ==> Follows(setup, states[i], states[i + 1])
  }

  lemma {:induction false} RunIsSafe(setup: Setup, states: seq<State>, i: nat)
    requires Run(setup, states) && i < |states|
    ensures Safe(setup, states[i])
  {
    if i == 0 {
      InitIsSafe(setup, states[0]);
    } else {
      RunIsSafe(setup, states, i - 1);
      assert Follows(setup, states[i - 1], states[i - 1 + 1]);
      var step :| Enabled(setup, states[i - 1], step) && states[i] == Apply(setup, states[i - 1], step);
      StepKeepsSafe(setup, states[i - 1], step);
    }
  }

  ghost predicate Reachable(setup: Setup, s: State) {
    exists states :: Run(setup, states) && states[|states| - 1] == s
  }

  lemma ReachableStep(setup: Setup, s: State, step: Step)
    requires 0 < setup.finality && Reachable(setup, s) && Enabled(setup, s, step)
    ensures Reachable(setup, Apply(setup, s, step))
  {
    var states :| Run(setup, states) && states[|states| - 1] == s;
    var after := Apply(setup, s, step);
    assert Follows(setup, s, after);
    RunGoesOn(setup, states, after);
  }

  lemma RunGoesOn(setup: Setup, states: seq<State>, after: State)
    requires Run(setup, states) && Follows(setup, states[|states| - 1], after)
    ensures Run(setup, states + [after])
  {
    var longer := states + [after];
    forall i | 0 <= i < |longer| - 1 ensures Follows(setup, longer[i], longer[i + 1]) {
      if i < |states| - 1 {
        assert Follows(setup, states[i], states[i + 1]);
      }
    }
  }

  lemma ReachableIsSafe(setup: Setup, s: State)
    requires Reachable(setup, s)
    ensures Safe(setup, s) && 0 < setup.finality
  {
    var states :| Run(setup, states) && states[|states| - 1] == s;
    RunIsSafe(setup, states, |states| - 1);
  }

  /** Journal safety in every state of every run, wherever processes crashed and whatever readers answered: at most
      one signed mutation is unclosed and the source's search finds it; nothing was signed while another was open;
      each mutation is closed at most once; and whatever has been broadcast is, byte for byte, what was persisted and
      journaled. */
  lemma JournalIsSafe(setup: Setup, states: seq<State>, n: nat)
    requires Run(setup, states) && n < |states|
    ensures var s := states[n];
            && (forall i, j ::
                  0 <= i < |s.audit| && 0 <= j < |s.audit| && Unresolved(s.audit, i) && Unresolved(s.audit, j)
                  ==> i == j)
            && LatestUnresolved(s.audit) == Open(s.audit)
            && (forall j :: 0 <= j < |s.audit| && IsSigned(s.audit[j]) ==> LatestUnresolved(s.audit[..j]) == None)
            && (forall c, d ::
                  0 <= c < d < |s.audit| && s.audit[c].event in TERMINAL_EVENTS && s.audit[d].event in TERMINAL_EVENTS
                  ==> s.audit[c].hash != s.audit[d].hash)
            && (forall raw :: raw in s.sent ==>
                  SignedIn(s.audit, Keccak(raw)) && Keccak(raw) in s.raws && s.raws[Keccak(raw)] == raw)
  {
    RunIsSafe(setup, states, n);
    var s := states[n];
    LatestIsOpen(s.audit);
    forall i, j | 0 <= i < |s.audit| && 0 <= j < |s.audit| && Unresolved(s.audit, i) && Unresolved(s.audit, j)
      ensures i == j
    {
      AtMostOneUnresolved(s.audit, i, j);
    }
    forall j | 0 <= j < |s.audit| && IsSigned(s.audit[j]) ensures LatestUnresolved(s.audit[..j]) == None {
      RecordMayFollow(s.audit, j);
      LatestIsOpen(s.audit[..j]);
    }
    forall c, d | 0 <= c < d < |s.audit| && s.audit[c].event in TERMINAL_EVENTS && s.audit[d].event in TERMINAL_EVENTS
      ensures s.audit[c].hash != s.audit[d].hash
    {
      ClosedAtMostOnce(s.audit, c, d);
    }
  }

  /** Each execution is recorded at most once, under its own hash and with the profit it made on the chain. */
  lemma RecordedOnce(setup: Setup, s: State, lane: Lane, i: nat, j: nat)
    requires Safe(setup, s) && i < |s.Ledger(lane)| && j < |s.Ledger(lane)|
    ensures i != j ==> s.Ledger(lane)[i].hash != s.Ledger(lane)[j].hash
    ensures Settled(s.chain, s.Ledger(lane)[i].hash.bytes, Some(s.Ledger(lane)[i].gross))
  {
    assert EntryHolds(s.chain, lane, s.Ledger(lane)[i]);
  }

  /** A transaction with the next nonce and a deadline still ahead was never signed before: what was mined has
      used its nonce up, and what was abandoned had expired. */
  lemma NextTransactionIsFresh(setup: Setup, s: State, raw: Raw)
    requires Safe(setup, s) && Open(s.audit) == None
    requires raw.nonce == NonceAt(setup, s.chain.blocks) && Clock(s.chain) < raw.deadline
    ensures !SignedIn(s.audit, Keccak(raw))
  {
    if SignedIn(s.audit, Keccak(raw)) {
      SignedIsOpenOrClosed(s.audit, Keccak(raw));
      var c :| 0 <= c < |s.audit| && Closes(s.audit[c], Keccak(raw));
      EndedIsBehind(setup, s.chain, s.sent, s.audit[c].event, raw);
    }
  }

  lemma EndedIsBehind(setup: Setup, c: Chain, sent: set<Raw>, event: Event, raw: Raw)
    requires ChainOk(setup, c, sent) && EndHolds(c, event, raw)
    ensures raw.nonce < NonceAt(setup, c.blocks) || raw.deadline < Clock(c)
  {
    assert c.blocks[..|c.blocks|] == c.blocks;
    match event
    case MutationEffect =>
      var i :| 0 <= i < c.final && ExecutedAt(c.blocks, i, raw);
      MinedUsesNonce(setup, c, sent, i, |c.blocks|);
    case MutationReverted => SettledUsesNonce(setup, c, sent, raw, None, |c.blocks|);
    case MutationAbandoned =>
    case _ =>
  }
}
