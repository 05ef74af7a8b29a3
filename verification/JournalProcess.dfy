// scripts/dual-base-arb.mjs: `execute`, `signBroadcastWait`, `executionStateFromReceipt` and `reconcile`, each of
// which may die before any of its writes while the chain moves on. The wallet lock makes them run one at a time.
module JournalProcess {
  import opened Evm
  import opened AuditLog
  import opened WalletChain
  import opened Reconciliation
  import opened MutationJournal
  import opened LedgerKeeping

  datatype Reason =
    | UnresolvedMutation
    | PendingNonce
    | NonceChanged
    | PrincipalChanged
    | PolicyStop
    | WalletDeltaMismatch
    | BalanceMismatch
    | BelowPlanFloor
    | PlanMissing
    | RawMissing
    | RawDiffersFromPlan
    | ConflictingFlags
    | NotAbandonable
    | NotReplayable

  datatype Ending =
    | Crashed
    | Refused(reason: Reason)
    | Completed
    | RevertedOnChain
    | ReceiptUnknown
    | Clean
    | AbandonedExpired
    | Rebroadcast
    | StillOpen(finding: Finding)

  /** Checks that can only fail if the journal's own state is wrong, or, for the balance check, if something was
      given up that had been executed. */
  predicate Impossible(reason: Reason, careful: bool) {
    reason.PlanMissing? || reason.RawMissing? || reason.RawDiffersFromPlan? || (careful && reason.BalanceMismatch?)
  }

  /** How a finding is acted on: `past` and `within` say where the readers' clocks are against the deadline. */
  predicate ActsOn(e: Ending, said: Finding, past: bool, within: bool, abandon: bool, rebroadcast: bool) {
    e == Crashed
    || match said
       case Confirmed(success) => ClosesOrRefuses(e, success)
       case NotObserved =>
         e == if abandon then if past then AbandonedExpired else Refused(NotAbandonable)
              else if rebroadcast then if within then Rebroadcast else Refused(NotReplayable)
              else StillOpen(NotObserved)
       case _ => e == StillOpen(said)
  }

  ghost predicate Past(raw: Raw, answers: seq<Observation>) { 0 < raw.deadline && PastDeadline(raw, answers) }

  ghost predicate Within(raw: Raw, answers: seq<Observation>) { 0 < raw.deadline && WithinDeadline(raw, answers) }

  /** What reconciling an open mutation ends in follows from the one finding the answers say. */
  ghost predicate EndsAsSaid(e: Ending, answers: seq<Observation>, raw: Raw, finality: nat, abandon: bool,
                             rebroadcast: bool)
  {
    exists said :: Says(answers, raw.nonce, finality, said)
                   && ActsOn(e, said, Past(raw, answers), Within(raw, answers), abandon, rebroadcast)
  }

  /** Closed with this outcome, or kept from it by the balance or the plan's floor. */
  predicate ClosesOrRefuses(e: Ending, success: bool) {
    if success then e == Completed || e == Refused(BalanceMismatch) || e == Refused(BelowPlanFloor)
    else e == RevertedOnChain
  }

  ghost predicate DeepCloses(e: Ending, views: seq<View>, seen: Blocks, finality: nat, raw: Raw) {
    e != Crashed ==>
      forall outcome :: WholeViews(views, seen) && Deep(seen, finality, raw, outcome) ==>
        ClosesOrRefuses(e, outcome.Some?)
  }

  /** `views` is what the readers answered on the chain `seen`, and the ending follows from it. */
  ghost predicate Reconciled(setup: Setup, e: Ending, views: seq<View>, seen: Blocks, raw: Raw, abandon: bool,
                             rebroadcast: bool)
  {
    && (forall v :: v in views ==> ViewOf(v, seen))
    && EndsAsSaid(e, ObserveAll(setup, seen, raw, views), raw, setup.finality, abandon, rebroadcast)
    && DeepCloses(e, views, seen, setup.finality, raw)
  }

  lemma OneFinding(answers: seq<Observation>, nonce: nat, finality: nat, f: Finding, g: Finding)
    requires Says(answers, nonce, finality, f) && Says(answers, nonce, finality, g)
    ensures f == g
  {
    ClassifyExactlyWhen(answers, nonce, finality, f);
    ClassifyExactlyWhen(answers, nonce, finality, g);
  }

  lemma SaidConfirmedCloses(e: Ending, answers: seq<Observation>, raw: Raw, finality: nat, abandon: bool,
                            rebroadcast: bool, success: bool)
    requires e != Crashed && EndsAsSaid(e, answers, raw, finality, abandon, rebroadcast)
    requires Says(answers, raw.nonce, finality, Confirmed(success))
    ensures ClosesOrRefuses(e, success)
  {
    var said :| Says(answers, raw.nonce, finality, said)
                && ActsOn(e, said, Past(raw, answers), Within(raw, answers), abandon, rebroadcast);
    OneFinding(answers, raw.nonce, finality, said, Confirmed(success));
  }

  /** Giving up and sending again were decided by the clocks. */
  lemma NotObservedDecides(answers: seq<Observation>, raw: Raw, finality: nat)
    ensures Says(answers, raw.nonce, finality, NotObserved) ==>
              && (AbandonmentAllowed(raw, answers) <==> Past(raw, answers))
              && (ReplayAllowed(raw, answers) <==> Within(raw, answers))
  {
    AbandonmentAllowedExactlyWhen(raw, answers);
    ReplayAllowedExactlyWhen(raw, answers);
  }

  /** The log only grew, and nothing in what was added is a signature other than this plan's. */
  ghost predicate SignsOnly(before: Log, after: Log, plan: Option<Plan>) {
    && before <= after
    && forall i :: |before| <= i < |after| && IsSigned(after[i]) ==> plan.Some? && after[i] == SignedRecord(plan.value)
  }

  lemma SignsOnlyThen(a: Log, b: Log, c: Log, first: Option<Plan>, second: Option<Plan>, plan: Option<Plan>)
    requires SignsOnly(a, b, first) && SignsOnly(b, c, second)
    requires (first.Some? ==> first == plan) && (second.Some? ==> second == plan)
    ensures SignsOnly(a, c, plan)
  {
    forall i | |a| <= i < |c| && IsSigned(c[i]) ensures plan.Some? && c[i] == SignedRecord(plan.value) {
      if i < |b| {
        assert c[i] == b[i];
      }
    }
  }

  /** What may be signed for an order: the next nonce and the balance as the chain `read` has them, the order's amount
      within that balance, and a deadline `ttl` after the clock at the start. */
  predicate MaySign(setup: Setup, plan: Plan, lane: Lane, amountIn: nat, deadline: nat, read: Blocks) {
    && plan.lane == lane && plan.amountIn == amountIn && plan.deadline == deadline
    && plan.nonce == NonceAt(setup, read) && plan.executorBaseBefore == Balance(setup, read, lane)
    && amountIn <= plan.executorBaseBefore
  }

  function Note(): Record { Record(Other, None, None) }

  function PlanRecord(plan: Plan): Record { Record(MutationPlan, None, Some(plan)) }

  class Journal {
    const setup: Setup

    // Nothing is given up on readings of which one height was jumped over by every reader.
    const careful: bool

    // Durable: the audit log, one raw file per hash, and one state file per lane.
    var audit: Log
    var raws: map<Hash, Raw>
    var usdg: seq<Entry>
    var weth: seq<Entry>

    // Outside.
    var chain: Chain
    var sent: set<Raw>

    // What the running process has read.
    var memory: Memory

    constructor (setup: Setup, careful: bool, chain: Chain)
      requires 0 < setup.finality && ChainOk(setup, chain, {})
      ensures this.setup == setup && this.careful == careful && Good() && audit == []
    {
      this.setup, this.careful, this.chain := setup, careful, chain;
      audit, raws, usdg, weth, sent, memory := [], map[], [], [], {}, BLANK;
      new;
      InitInv(setup, State());
    }

    function State(): State
      reads this
    {
      MutationJournal.State(audit, raws, usdg, weth, chain, sent, memory)
    }

    /** Safe in any case; ledgers kept when nothing is given up on overtaken readings. */
    ghost predicate Good()
      reads this
    {
      GoodAt(State())
    }

    ghost predicate GoodAt(s: State) {
      Safe(setup, s) && (careful ==> Inv(setup, s))
    }

    lemma StepIsGood(step: Step)
      requires Good() && Enabled(setup, State(), step) && (careful ==> Careful(step))
      ensures GoodAt(Apply(setup, State(), step))
    {
      StepKeepsSafe(setup, State(), step);
      if careful {
        StepKeepsInv(setup, State(), step);
      }
    }

    /** A process starts with nothing in its head. */
    method Begin()
      requires Good()
      modifies this`memory
      ensures Good() && memory == BLANK
    {
      StepIsGood(Crashes);
      memory := BLANK;
    }

    // ---- the world between two writes ----

    /** The part of a chain that is never reorganised away. */
    function Final(c: Chain): Blocks { if c.final <= |c.blocks| then c.blocks[..c.final] else c.blocks }

    lemma MoveKeepsFinal(c: Chain, move: Move)
      requires 0 < setup.finality && c.final <= move.keep <= |c.blocks|
      ensures Final(c) <= Final(Moved(setup, c, move)) && Moved(setup, c, move).final <= move.keep + 1
    {
      var r := Moved(setup, c, move);
      assert r.blocks[..c.final] == r.blocks[..move.keep][..c.final];
    }

    /** The chain moves any number of times, and the process may not live to see it. What had settled stays. */
    method Pause(ghost raw: Raw, ghost outcome: Option<nat>) returns (alive: bool)
      requires Good()
      modifies this`chain
      ensures Good()
      ensures Settled(old(chain), raw, outcome) ==> Settled(chain, raw, outcome)
      ensures Final(old(chain)) <= chain.blocks
    {
      var moves: int := *;
      while moves > 0
        invariant Good()
        invariant Settled(old(chain), raw, outcome) ==> Settled(chain, raw, outcome)
        invariant Final(old(chain)) <= Final(chain)
      {
        moves := moves - 1;
        MoveOnce(raw, outcome);
      }
      alive := *;
    }

    method MoveOnce(ghost raw: Raw, ghost outcome: Option<nat>)
      requires Good()
      modifies this`chain
      ensures Good()
      ensures Settled(old(chain), raw, outcome) ==> Settled(chain, raw, outcome)
      ensures Final(old(chain)) <= Final(chain)
    {
      var move: Move := *;
      if MayMove(setup, chain, sent, move) {
        StepIsGood(ChainMoves(move));
        MoveKeepsFinal(chain, move);
        if Settled(chain, raw, outcome) {
          MoveKeepsSettled(setup, chain, sent, move, raw, outcome);
        }
        chain := Moved(setup, chain, move);
      }
    }

    // ---- durable writes ----

    method AppendNote(record: Record)
      requires Good() && record.event !in SIGNED_EVENTS && record.event !in TERMINAL_EVENTS
      modifies this`audit
      ensures Good() && audit == old(audit) + [record] && Open(audit) == old(Open(audit))
      ensures forall hash :: SignedIn(audit, hash) ==> old(SignedIn(audit, hash))
      ensures forall plan :: old(PlannedIn(audit, plan)) ==> PlannedIn(audit, plan)
    {
      StepIsGood(Notes(record));
      NoteKeepsMarks(audit, record);
      audit := audit + [record];
    }

    lemma NoteKeepsMarks(log: Log, record: Record)
      requires record.event !in SIGNED_EVENTS && record.event !in TERMINAL_EVENTS
      ensures Open(log + [record]) == Open(log)
      ensures forall hash :: SignedIn(log + [record], hash) ==> SignedIn(log, hash)
      ensures forall plan :: PlannedIn(log, plan) ==> PlannedIn(log + [record], plan)
    {
      OpenAfter(log, record);
      forall plan | PlannedIn(log, plan) ensures PlannedIn(log + [record], plan) {
        var i :| 0 <= i < |log| && log[i].event == MutationPlan && log[i].plan == Some(plan);
        assert (log + [record])[i] == log[i];
      }
    }

    /** `persistSignedRaw`: one file per hash, never overwritten with other bytes. */
    method PersistSignedRaw(raw: Raw) returns (same: bool)
      requires Good()
      modifies this`raws
      ensures same && Good() && raws == old(raws)[Keccak(raw) := raw]
    {
      StepIsGood(Persists(raw));
      if Keccak(raw) in raws {
        same := raws[Keccak(raw)] == raw;
        assert raws == raws[Keccak(raw) := raw];
      } else {
        raws := raws[Keccak(raw) := raw];
        same := true;
      }
    }

    method AppendSigned(plan: Plan)
      requires Good() && Enabled(setup, State(), Signs(plan))
      modifies this`audit, this`memory
      ensures Good() && audit == old(audit) + [SignedRecord(plan)] && Open(audit) == Some(SignedRecord(plan))
    {
      StepIsGood(Signs(plan));
      OpenAfter(audit, SignedRecord(plan));
      audit, memory := audit + [SignedRecord(plan)], BLANK;
    }

    /** The bytes may or may not reach the network. */
    method Send(raw: Raw)
      requires Good() && Enabled(setup, State(), Sends(raw))
      modifies this`sent
      ensures Good() && old(sent) <= sent <= old(sent) + {raw}
    {
      StepIsGood(Sends(raw));
      var reached: bool := *;
      if reached {
        sent := sent + {raw};
      }
    }

    method AppendEnd(event: Event, hash: Hash)
      requires Good() && IsOpen(audit, hash) && MayEnd(State(), event, hash)
      modifies this`audit, this`memory
      ensures Good() && audit == old(audit) + [Record(event, Some(hash), None)] && Open(audit) == None
    {
      StepIsGood(Ends(event));
      OpenAfter(audit, Record(event, Some(hash), None));
      audit, memory := audit + [Record(event, Some(hash), None)], BLANK;
    }

    /** The executor's base balance, read with nothing in flight. */
    method ReadBalance(lane: Lane) returns (balance: nat)
      requires Good() && Open(audit) == None
      modifies this`memory
      ensures Good() && balance == Balance(setup, chain.blocks, lane) && memory.read == Some(Reading(lane, balance))
    {
      StepIsGood(Reads(lane));
      balance := Balance(setup, chain.blocks, lane);
      memory := memory.(read := Some(Reading(lane, balance)));
    }

    method IsListed(entries: seq<Entry>, hash: Hash) returns (listed: bool)
      ensures listed <==> Recorded(entries, hash)
    {
      listed := false;
      for k := 0 to |entries|
        invariant listed <==> exists j :: 0 <= j < k && entries[j].hash == hash
      {
        listed := listed || entries[k].hash == hash;
      }
    }

    /** The lane's state file, rewritten as a whole; an execution already in it is not added again. */
    method WriteLedger(entry: Entry)
      requires Good() && IsOpen(audit, entry.hash) && Settled(chain, entry.hash.bytes, Some(entry.gross))
      modifies this`usdg, this`weth
      ensures Good() && State() == Apply(setup, old(State()), Records(entry))
      ensures Recorded(State().Ledger(entry.hash.bytes.lane), entry.hash)
    {
      StepIsGood(Records(entry));
      var lane := entry.hash.bytes.lane;
      RecordedStays(State().Ledger(lane), entry, entry.hash);
      var listed := IsListed(State().Ledger(lane), entry.hash);
      if !listed {
        if lane == UsdgLane {
          usdg := usdg + [entry];
        } else {
          weth := weth + [entry];
        }
      }
    }

    // ---- execute ----

    /** The exact preflight: nothing unresolved, nothing pending, and a nonce and principal that have not changed when
        they are read again, on the chain `read`. `queued` and `queuedAgain` say whether the mempool holds a transaction
        of the wallet at the two readings. */
    method Execute(lane: Lane, amountIn: nat, ttl: nat, createdAt: nat, queued: bool, queuedAgain: bool)
      returns (e: Ending, ghost read: Blocks)
      requires Good() && 0 < ttl
      modifies this
      ensures e == Completed || e == RevertedOnChain ==> Open(audit) == None
      ensures Good()
      ensures e == Completed ==>
                exists raw: Raw :: raw.lane == lane && raw.amountIn == amountIn && !old(SignedIn(audit, Keccak(raw)))
                                   && Recorded(State().Ledger(lane), Keccak(raw))
      ensures old(Open(audit)).Some? ==> e == Refused(UnresolvedMutation) && audit == old(audit) && sent == old(sent)
      ensures old(Open(audit)).None? && queued ==> e == Refused(PendingNonce)
      ensures queued || queuedAgain ==> SignsOnly(old(audit), audit, None)
      ensures old(Final(chain)) <= read
      ensures SignsOnly(old(audit), audit, None)
              || exists plan :: MaySign(setup, plan, lane, amountIn, old(Clock(chain)) + ttl, read)
                                && SignsOnly(old(audit), audit, Some(plan))
      ensures e.Refused? ==> !Impossible(e.reason, careful)
    {
      read := chain.blocks;
      Begin();
      LatestIsOpen(audit);
      var unresolved := FindLatestUnresolved(audit);
      if unresolved.Some? {
        e := Refused(UnresolvedMutation);
        return;
      }
      if queued {
        e := Refused(PendingNonce);
        return;
      }
      var deadline := Clock(chain) + ttl;
      var latest := NonceAt(setup, chain.blocks);
      NextTransactionIsFresh(setup, State(), Raw(lane, latest, deadline, amountIn));
      var alive := Pause(Raw(lane, latest, deadline, amountIn), None);
      read := chain.blocks;
      if !alive {
        e := Crashed;
        return;
      }
      ghost var plan;
      e, plan := ReadAndSign(lane, amountIn, deadline, latest, createdAt, queuedAgain);
    }

    /** Read nonce and principal again, then plan and sign. */
    method ReadAndSign(lane: Lane, amountIn: nat, deadline: nat, latest: nat, createdAt: nat, queuedAgain: bool)
      returns (e: Ending, ghost plan: Plan)
      requires Good() && Open(audit) == None && !SignedIn(audit, Keccak(Raw(lane, latest, deadline, amountIn)))
      modifies this
      ensures e == Completed || e == RevertedOnChain ==> Open(audit) == None
      ensures Good()
      ensures e == Completed ==> Recorded(State().Ledger(lane), Keccak(Raw(lane, latest, deadline, amountIn)))
      ensures queuedAgain ==> SignsOnly(old(audit), audit, None)
      ensures || SignsOnly(old(audit), audit, None)
              || (MaySign(setup, plan, lane, amountIn, deadline, old(chain.blocks))
                  && SignsOnly(old(audit), audit, Some(plan)))
      ensures e.Refused? ==> !Impossible(e.reason, careful) && e.reason != UnresolvedMutation
    {
      plan := Plan(createdAt, lane, latest, deadline, amountIn, 0);
      if NonceAt(setup, chain.blocks) != latest || queuedAgain {
        e := Refused(NonceChanged);
        return;
      }
      var executorBaseBefore := ReadBalance(lane);
      if executorBaseBefore < amountIn {
        e := Refused(PrincipalChanged);
        return;
      }
      plan := Plan(createdAt, lane, latest, deadline, amountIn, executorBaseBefore);
      e := PlanAndSign(Plan(createdAt, lane, latest, deadline, amountIn, executorBaseBefore));
    }

    ghost predicate ReadyToSign(plan: Plan)
      reads this
    {
      Good() && Unsigned(plan)
    }

    ghost predicate Unsigned(plan: Plan)
      reads this
    {
      && Open(audit) == None && !SignedIn(audit, Keccak(RawOf(plan)))
      && memory.read == Some(Reading(plan.lane, plan.executorBaseBefore))
    }

    method PlanAndSign(plan: Plan) returns (e: Ending)
      requires ReadyToSign(plan)
      modifies this
      ensures e == Completed || e == RevertedOnChain ==> Open(audit) == None
      ensures Good()
      ensures e == Completed ==> Recorded(State().Ledger(plan.lane), Keccak(RawOf(plan)))
      ensures e.Refused? ==> !Impossible(e.reason, careful) && e.reason != UnresolvedMutation
      ensures SignsOnly(old(audit), audit, Some(plan))
    {
      var alive := RecordPlan(plan);
      ghost var planned := audit;
      if !alive {
        return Crashed;
      }
      var stillAuthorized: bool := *;
      if !stillAuthorized {
        return Refused(PolicyStop);
      }
      e := SignBroadcastWait(plan);
      SignsOnlyThen(old(audit), planned, audit, None, Some(plan), Some(plan));
    }

    /** `mutationPlan`: the intent, then the plan. */
    method RecordPlan(plan: Plan) returns (alive: bool)
      requires ReadyToSign(plan)
      modifies this`audit, this`chain, this`memory
      ensures Good() && SignsOnly(old(audit), audit, None)
      ensures alive ==> ReadyToSign(plan) && PlannedIn(audit, plan)
    {
      alive := NoteBeforeSigning(plan, Note());
      ghost var noted := audit;
      if alive {
        alive := NotePlan(plan);
      }
      SignsOnlyThen(old(audit), noted, audit, None, None, None);
    }

    method NotePlan(plan: Plan) returns (alive: bool)
      requires ReadyToSign(plan)
      modifies this`audit, this`chain, this`memory
      ensures Good() && SignsOnly(old(audit), audit, None)
      ensures alive ==> ReadyToSign(plan) && PlannedIn(audit, plan)
    {
      alive := NoteBeforeSigning(plan, PlanRecord(plan));
      if alive {
        assert audit[|audit| - 1] == PlanRecord(plan);
      }
    }

    method NoteBeforeSigning(plan: Plan, record: Record) returns (alive: bool)
      requires ReadyToSign(plan) && record.event !in SIGNED_EVENTS && record.event !in TERMINAL_EVENTS
      modifies this`audit, this`chain
      ensures Good()
      ensures alive ==> Unsigned(plan)
      ensures audit == (if alive then old(audit) + [record] else old(audit)) && SignsOnly(old(audit), audit, None)
    {
      NoteSignsNothing(audit, record);
      alive := Pause(RawOf(plan), None);
      if alive {
        AppendNote(record);
      }
    }

    lemma NoteSignsNothing(log: Log, record: Record)
      requires record.event !in SIGNED_EVENTS
      ensures SignsOnly(log, log, None) && SignsOnly(log, log + [record], None)
    {
    }

    /** Persist, journal, broadcast, in that order. */
    method SignBroadcastWait(plan: Plan) returns (e: Ending)
      requires ReadyToSign(plan) && PlannedIn(audit, plan)
      modifies this
      ensures Good()
      ensures e == Completed ==> Recorded(State().Ledger(plan.lane), Keccak(RawOf(plan)))
      ensures e == Completed || e == RevertedOnChain ==> Open(audit) == None
      ensures e.Refused? ==> !Impossible(e.reason, careful) && e.reason != UnresolvedMutation
      ensures SignsOnly(old(audit), audit, Some(plan))
    {
      var alive := PersistAndJournal(plan);
      ghost var signed := audit;
      if !alive {
        return Crashed;
      }
      var stillAuthorized: bool := *;
      if !stillAuthorized {
        return Refused(PolicyStop);
      }
      e := BroadcastAndWait(plan);
      SignsOnlyThen(old(audit), signed, audit, Some(plan), None, Some(plan));
    }

    method PersistAndJournal(plan: Plan) returns (alive: bool)
      requires ReadyToSign(plan) && PlannedIn(audit, plan)
      modifies this`chain, this`raws, this`audit, this`memory
      ensures Good() && SignsOnly(old(audit), audit, Some(plan))
      ensures alive ==> Open(audit) == Some(SignedRecord(plan)) && Keccak(RawOf(plan)) in raws
    {
      alive := Persist(plan);
      if alive {
        alive := JournalSigned(plan);
      }
    }

    method Persist(plan: Plan) returns (alive: bool)
      requires ReadyToSign(plan)
      modifies this`chain, this`raws
      ensures Good()
      ensures alive ==> ReadyToSign(plan) && Keccak(RawOf(plan)) in raws
    {
      alive := Pause(RawOf(plan), None);
      if alive {
        var same := PersistSignedRaw(RawOf(plan));
        if !same {
          return false;
        }
      }
    }

    method JournalSigned(plan: Plan) returns (alive: bool)
      requires ReadyToSign(plan) && PlannedIn(audit, plan) && Keccak(RawOf(plan)) in raws
      modifies this`chain, this`audit, this`memory
      ensures Good()
      ensures alive ==> Open(audit) == Some(SignedRecord(plan))
      ensures audit == if alive then old(audit) + [SignedRecord(plan)] else old(audit)
    {
      alive := Pause(RawOf(plan), None);
      if alive {
        AppendSigned(plan);
      }
    }

    method BroadcastAndWait(plan: Plan) returns (e: Ending)
      requires Good() && Open(audit) == Some(SignedRecord(plan)) && Keccak(RawOf(plan)) in raws
      modifies this
      ensures e == Completed || e == RevertedOnChain ==> Open(audit) == None
      ensures Good()
      ensures e == Completed ==> Recorded(State().Ledger(plan.lane), Keccak(RawOf(plan)))
      ensures e.Refused? ==> !Impossible(e.reason, careful) && e.reason != UnresolvedMutation
      ensures SignsOnly(old(audit), audit, None)
    {
      var alive := Pause(RawOf(plan), None);
      if !alive {
        return Crashed;
      }
      Send(RawOf(plan));
      alive := NotePaused(RawOf(plan));
      ghost var noted := audit;
      if !alive {
        return Crashed;
      }
      e := Await(plan);
      SignsOnlyThen(old(audit), noted, audit, None, None, None);
    }

    /** Live to write a note, or die before it. */
    method NotePaused(raw: Raw) returns (alive: bool)
      requires Good()
      modifies this`chain, this`audit
      ensures Good() && Open(audit) == old(Open(audit)) && SignsOnly(old(audit), audit, None)
    {
      alive := Pause(raw, None);
      if alive {
        AppendNote(Note());
      }
    }

    method Await(plan: Plan) returns (e: Ending)
      requires Good() && Open(audit) == Some(SignedRecord(plan))
      modifies this`audit, this`chain, this`memory, this`usdg, this`weth
      ensures e == Completed || e == RevertedOnChain ==> Open(audit) == None
      ensures Good()
      ensures e == Completed ==> Recorded(State().Ledger(plan.lane), Keccak(RawOf(plan)))
      ensures e.Refused? ==> !Impossible(e.reason, careful) && e.reason != UnresolvedMutation
      ensures SignsOnly(old(audit), audit, None)
    {
      var receipt := WaitForReceipt(RawOf(plan));
      if receipt.None? {
        var alive := NotePaused(RawOf(plan));
        return ReceiptUnknown;
      }
      e := Conclude(plan, receipt.value);
    }

    /** A receipt deep enough in the chain, or a timeout. */
    method WaitForReceipt(raw: Raw) returns (receipt: Option<Option<nat>>)
      requires Good()
      modifies this`chain
      ensures Good()
      ensures receipt.Some? ==> Settled(chain, raw, receipt.value)
    {
      var alive := Pause(raw, None);
      var i: int := *;
      if alive && 0 <= i && i + setup.finality <= |chain.blocks| && chain.blocks[i].receipt.Some?
         && chain.blocks[i].receipt.value.raw == raw {
        assert MinedAt(chain.blocks, i, raw, chain.blocks[i].receipt.value.gross);
        return Some(chain.blocks[i].receipt.value.gross);
      }
      receipt := None;
    }

    method Conclude(plan: Plan, outcome: Option<nat>) returns (e: Ending)
      requires Good() && Open(audit) == Some(SignedRecord(plan)) && Settled(chain, RawOf(plan), outcome)
      modifies this`audit, this`chain, this`memory, this`usdg, this`weth
      ensures Good()
      ensures e == Completed ==> Recorded(State().Ledger(plan.lane), Keccak(RawOf(plan)))
      ensures e == Completed || e == RevertedOnChain ==> Open(audit) == None
      ensures e.Refused? ==> !Impossible(e.reason, careful) && e.reason != UnresolvedMutation
      ensures SignsOnly(old(audit), audit, None)
    {
      if outcome.None? {
        e := CloseReverted(Keccak(RawOf(plan)));
        return;
      }
      var walletAgrees: bool := *;
      if !walletAgrees {
        AppendNote(Note());
        return Refused(WalletDeltaMismatch);
      }
      e := ExecutionStateFromReceipt(plan, outcome.value);
    }

    method CloseReverted(hash: Hash) returns (e: Ending)
      requires Good() && IsOpen(audit, hash) && Settled(chain, hash.bytes, None)
      modifies this`audit, this`chain, this`memory
      ensures Good()
      ensures e == Crashed || (e == RevertedOnChain && Open(audit) == None)
      ensures SignsOnly(old(audit), audit, None)
    {
      var alive := Pause(hash.bytes, None);
      if !alive {
        return Crashed;
      }
      AppendEnd(MutationReverted, hash);
      e := RevertedOnChain;
    }

    /** Check the balance, write the ledger, then close the mutation; running it again after a crash between the
        two writes records nothing twice. */
    method ExecutionStateFromReceipt(plan: Plan, gross: nat) returns (e: Ending)
      requires Good() && Settled(chain, RawOf(plan), Some(gross))
      requires Open(audit).Some? && Open(audit).value == SignedRecord(plan)
      modifies this`audit, this`chain, this`memory, this`usdg, this`weth
      ensures Good()
      ensures e == Crashed || e == Completed || e == Refused(BelowPlanFloor)
              || (!careful && e == Refused(BalanceMismatch))
      ensures e == Refused(BalanceMismatch)
              <==> old(Balance(setup, chain.blocks, plan.lane)) != plan.executorBaseBefore + gross
      ensures e == Completed ==> Open(audit) == None && Recorded(State().Ledger(plan.lane), Keccak(RawOf(plan)))
      ensures SignsOnly(old(audit), audit, None)
    {
      if careful {
        PostStateBalanceAgrees(setup, State(), Keccak(RawOf(plan)), gross);
      }
      if Balance(setup, chain.blocks, plan.lane) != plan.executorBaseBefore + gross {
        return Refused(BalanceMismatch);
      }
      var aboveFloor: bool := *;
      if !aboveFloor {
        return Refused(BelowPlanFloor);
      }
      var alive := RecordExecution(Entry(Keccak(RawOf(plan)), gross));
      if !alive {
        return Crashed;
      }
      e := CloseRecorded(Keccak(RawOf(plan)));
    }

    method RecordExecution(entry: Entry) returns (alive: bool)
      requires Good() && IsOpen(audit, entry.hash) && Settled(chain, entry.hash.bytes, Some(entry.gross))
      modifies this`chain, this`usdg, this`weth
      ensures Good()
      ensures alive ==> Recorded(State().Ledger(entry.hash.bytes.lane), entry.hash)
    {
      alive := Pause(entry.hash.bytes, Some(entry.gross));
      if alive {
        WriteLedger(entry);
      }
    }

    method CloseRecorded(hash: Hash) returns (e: Ending)
      requires Good() && IsOpen(audit, hash) && Recorded(State().Ledger(hash.bytes.lane), hash)
      modifies this`audit, this`chain, this`memory
      ensures Good()
      ensures e == Crashed || (e == Completed && Open(audit) == None)
      ensures SignsOnly(old(audit), audit, None)
    {
      var alive := NotePaused(hash.bytes);
      ghost var noted := audit;
      if !alive {
        return Crashed;
      }
      e := EndRecorded(hash);
      SignsOnlyThen(old(audit), noted, audit, None, None, None);
    }

    method EndRecorded(hash: Hash) returns (e: Ending)
      requires Good() && IsOpen(audit, hash) && Recorded(State().Ledger(hash.bytes.lane), hash)
      modifies this`audit, this`chain, this`memory
      ensures Good()
      ensures e == Crashed || (e == Completed && Open(audit) == None)
      ensures SignsOnly(old(audit), audit, None)
    {
      var alive := Pause(hash.bytes, None);
      if !alive {
        return Crashed;
      }
      AppendEnd(MutationEffect, hash);
      e := Completed;
    }

    // ---- reconcile ----

    /** What the readers answer: any number of them, each seeing the chain up to heights of its own. */
    method ReadViews(mayGiveUp: bool) returns (views: seq<View>)
      ensures forall v :: v in views ==> ViewOf(v, chain.blocks)
      ensures careful && mayGiveUp ==> !Overtaken(views)
    {
      views := *;
      if (exists v :: v in views && !ViewOf(v, chain.blocks)) || (careful && mayGiveUp && Overtaken(views)) {
        views := [];
      }
    }

    /** The latest plan record with the mutation's plan hash; a plan hash identifies its plan. */
    method FindPlan(plan: Option<Plan>) returns (found: Option<Plan>)
      ensures found.Some? <==> plan.Some? && PlannedIn(audit, plan.value)
      ensures found.Some? ==> found == plan
    {
      var index := |audit|;
      while index > 0
        invariant 0 <= index <= |audit|
        invariant forall j :: index <= j < |audit| ==>
                    !(audit[j].event == MutationPlan && plan.Some? && audit[j].plan == plan)
      {
        index := index - 1;
        if audit[index].event == MutationPlan && plan.Some? && audit[index].plan == plan {
          return plan;
        }
      }
      found := None;
    }

    lemma OpenIsComplete()
      requires Good() && Open(audit).Some?
      ensures var r := Open(audit).value;
              && r.plan.Some? && r == SignedRecord(r.plan.value) && PlannedIn(audit, r.plan.value)
              && r.hash.value in raws
              && raws[r.hash.value] == RawOf(r.plan.value)
    {
      var i := OpenIsUnresolved(audit);
      SignedIsPlanned(audit, i);
      var plan := audit[i].plan.value;
      var j :| 0 <= j < i && audit[..i][j].event == MutationPlan && audit[..i][j].plan == Some(plan);
      assert audit[j].event == MutationPlan && audit[j].plan == Some(plan);
    }

    /** Look at the chain, then close, resend or leave the open mutation. `views` is what the readers answered on the
        chain `seen`, and the ending follows from it; when they saw all of it and the mutation is mined deep enough, it
        does not stay open. */
    method Reconcile(abandonExpired: bool, rebroadcastSameRaw: bool)
      returns (e: Ending, ghost views: seq<View>, ghost seen: Blocks)
      requires Good()
      modifies this
      ensures e == Completed || e == RevertedOnChain || e == AbandonedExpired ==> Open(audit) == None
      ensures Good()
      ensures old(Open(audit)).None? ==> e == Clean && audit == old(audit) && sent == old(sent)
      ensures e == Completed ==>
                old(Open(audit)).Some? && old(Open(audit)).value.hash.Some?
                && Recorded(State().Ledger(old(Open(audit)).value.hash.value.bytes.lane),
                            old(Open(audit)).value.hash.value)
      ensures e.Refused? ==> !Impossible(e.reason, careful)
      ensures old(Open(audit)).Some? && abandonExpired && rebroadcastSameRaw ==> e == Refused(ConflictingFlags)
      ensures old(Open(audit)).Some? && !(abandonExpired && rebroadcastSameRaw) ==>
                && old(Open(audit)).value.hash.Some?
                && Reconciled(setup, e, views, seen, old(Open(audit)).value.hash.value.bytes, abandonExpired,
                              rebroadcastSameRaw)
                && old(Final(chain)) <= seen
      ensures sent == old(sent) || exists raw ::
                sent == old(sent) + {raw} && Keccak(raw) in old(raws) && old(raws)[Keccak(raw)] == raw
    {
      views, seen := [], [];
      Begin();
      LatestIsOpen(audit);
      var mutation := FindLatestUnresolved(audit);
      if mutation.None? {
        e := Clean;
        return;
      }
      OpenIsComplete();
      var plan := FindPlan(mutation.value.plan);
      if plan.None? {
        e := Refused(PlanMissing);
        return;
      }
      if abandonExpired && rebroadcastSameRaw {
        e := Refused(ConflictingFlags);
        return;
      }
      var hash := mutation.value.hash.value;
      if hash !in raws {
        e := Refused(RawMissing);
        return;
      }
      var raw := raws[hash];
      if Keccak(raw) != hash || raw != RawOf(plan.value) {
        e := Refused(RawDiffersFromPlan);
        return;
      }
      e, views, seen := ReconcileOpen(plan.value, abandonExpired, rebroadcastSameRaw);
    }

    method ReconcileOpen(plan: Plan, abandonExpired: bool, rebroadcastSameRaw: bool)
      returns (e: Ending, ghost views: seq<View>, ghost seen: Blocks)
      requires !(abandonExpired && rebroadcastSameRaw)
      requires Good() && Open(audit) == Some(SignedRecord(plan))
      requires Keccak(RawOf(plan)) in raws && raws[Keccak(RawOf(plan))] == RawOf(plan)
      modifies this
      ensures e == Completed || e == RevertedOnChain || e == AbandonedExpired ==> Open(audit) == None
      ensures Good()
      ensures e == Completed ==> Recorded(State().Ledger(plan.lane), Keccak(RawOf(plan)))
      ensures e.Refused? ==> !Impossible(e.reason, careful)
      ensures sent == old(sent) || sent == old(sent) + {RawOf(plan)}
      ensures Reconciled(setup, e, views, seen, RawOf(plan), abandonExpired, rebroadcastSameRaw)
      ensures old(Final(chain)) <= seen
    {
      var alive, answered, finding, outcome;
      ghost var answers;
      alive, answered, answers, finding, outcome := Look(RawOf(plan), abandonExpired);
      views, seen := answered, chain.blocks;
      if !alive {
        e := Crashed;
      } else {
        e := Act(plan, answered, answers, finding, outcome, abandonExpired, rebroadcastSameRaw,
                 Past(RawOf(plan), answers), Within(RawOf(plan), answers));
      }
      SaidIsReconciled(e, views, seen, answers, RawOf(plan), finding, abandonExpired, rebroadcastSameRaw);
    }

    ghost predicate DeepIsSaidBy(views: seq<View>, seen: Blocks, observations: seq<Observation>, raw: Raw) {
      forall outcome :: WholeViews(views, seen) && Deep(seen, setup.finality, raw, outcome) ==>
        Says(observations, raw.nonce, setup.finality, Confirmed(outcome.Some?))
    }

    /** What is deep is said to be, when the readers see everything. */
    lemma DeepIsSaid(raw: Raw, views: seq<View>)
      requires Good() && forall v :: v in views ==> ViewOf(v, chain.blocks)
      ensures DeepIsSaidBy(views, chain.blocks, ObserveAll(setup, chain.blocks, raw, views), raw)
    {
      forall outcome | WholeViews(views, chain.blocks) && Deep(chain.blocks, setup.finality, raw, outcome)
        ensures Says(ObserveAll(setup, chain.blocks, raw, views), raw.nonce, setup.finality, Confirmed(outcome.Some?))
      {
        DeepIsConfirmed(setup, chain, sent, raw, views, outcome);
        ClassifyExactlyWhen(ObserveAll(setup, chain.blocks, raw, views), raw.nonce, setup.finality,
                            Confirmed(outcome.Some?));
      }
    }

    lemma SaidIsReconciled(e: Ending, views: seq<View>, seen: Blocks, answers: seq<Observation>, raw: Raw,
                           finding: Finding, abandon: bool, rebroadcast: bool)
      requires (forall v :: v in views ==> ViewOf(v, seen)) && answers == ObserveAll(setup, seen, raw, views)
      requires Says(answers, raw.nonce, setup.finality, finding)
      requires ActsOn(e, finding, Past(raw, answers), Within(raw, answers), abandon, rebroadcast)
      requires DeepIsSaidBy(views, seen, answers, raw)
      ensures Reconciled(setup, e, views, seen, raw, abandon, rebroadcast)
    {
      if e != Crashed {
        forall outcome | WholeViews(views, seen) && Deep(seen, setup.finality, raw, outcome)
          ensures ClosesOrRefuses(e, outcome.Some?)
        {
          SaidConfirmedCloses(e, answers, raw, setup.finality, abandon, rebroadcast, outcome.Some?);
        }
      }
    }

    /** Act on the finding. `past` and `within` say where the answering readers' clocks are against the deadline. */
    method Act(plan: Plan, views: seq<View>, ghost answers: seq<Observation>, finding: Finding, outcome: Option<nat>,
               abandonExpired: bool, rebroadcastSameRaw: bool, ghost past: bool, ghost within: bool)
      returns (e: Ending)
      requires Good() && Open(audit) == Some(SignedRecord(plan)) && !(abandonExpired && rebroadcastSameRaw)
      requires Keccak(RawOf(plan)) in raws && raws[Keccak(RawOf(plan))] == RawOf(plan)
      requires Answered(RawOf(plan), views, answers) && (careful && abandonExpired ==> !Overtaken(views))
      requires finding.NotObserved? ==> ClocksDecide(RawOf(plan), answers, past, within)
      requires finding.Confirmed? ==> Settled(chain, RawOf(plan), outcome) && outcome.Some? == finding.success
      modifies this
      ensures e == Completed || e == RevertedOnChain || e == AbandonedExpired ==> Open(audit) == None
      ensures Good()
      ensures e == Completed ==> Recorded(State().Ledger(plan.lane), Keccak(RawOf(plan)))
      ensures e.Refused? ==> !Impossible(e.reason, careful)
      ensures sent == old(sent) || sent == old(sent) + {RawOf(plan)}
      ensures ActsOn(e, finding, past, within, abandonExpired, rebroadcastSameRaw)
    {
      match finding
      case Confirmed(_) =>
        e := CloseConfirmed(plan, outcome);
      case NotObserved =>
        e := Unobserved(RawOf(plan), views, answers, abandonExpired, rebroadcastSameRaw, past, within);
      case _ =>
        e := StillOpen(finding);
    }

    /** Giving up is decided by the clocks alone, and so is sending again. */
    ghost predicate ClocksDecide(raw: Raw, answers: seq<Observation>, past: bool, within: bool) {
      (AbandonmentAllowed(raw, answers) <==> past) && (ReplayAllowed(raw, answers) <==> within)
    }

    /** The readers' answers, the finding they say, and a note of it. */
    method Look(raw: Raw, mayGiveUp: bool)
      returns (alive: bool, views: seq<View>, ghost answers: seq<Observation>, finding: Finding, outcome: Option<nat>)
      requires Good()
      modifies this`audit, this`chain
      ensures Good() && Open(audit) == old(Open(audit)) && old(Final(chain)) <= chain.blocks
      ensures Judged(raw, views, answers, finding) && (careful && mayGiveUp ==> !Overtaken(views))
      ensures finding.Confirmed? ==> Settled(chain, raw, outcome) && outcome.Some? == finding.success
    {
      alive := Pause(raw, None);
      views := ReadViews(mayGiveUp);
      answers, finding, outcome := Judge(raw, views);
      NoteIfAlive(alive);
    }

    method NoteIfAlive(alive: bool)
      requires Good()
      modifies this`audit
      ensures Good() && Open(audit) == old(Open(audit))
    {
      if alive {
        AppendNote(Note());
      }
    }

    /** The finding is what these readings of the chain as it is say. */
    ghost predicate Judged(raw: Raw, views: seq<View>, answers: seq<Observation>, finding: Finding)
      reads this
    {
      && Answered(raw, views, answers) && Says(answers, raw.nonce, setup.finality, finding)
      && DeepIsSaidBy(views, chain.blocks, answers, raw)
      && (finding.NotObserved? ==> ClocksDecide(raw, answers, Past(raw, answers), Within(raw, answers)))
    }

    /** `answers` is what these readings of the chain as it is amount to. */
    ghost predicate Answered(raw: Raw, views: seq<View>, answers: seq<Observation>)
      reads this
    {
      (forall v :: v in views ==> ViewOf(v, chain.blocks)) && answers == ObserveAll(setup, chain.blocks, raw, views)
    }

    method Unobserved(raw: Raw, views: seq<View>, ghost answers: seq<Observation>, abandonExpired: bool,
                      rebroadcastSameRaw: bool, ghost past: bool, ghost within: bool)
      returns (e: Ending)
      requires Good() && Enabled(setup, State(), Sends(raw)) && !(abandonExpired && rebroadcastSameRaw)
      requires Answered(raw, views, answers) && ClocksDecide(raw, answers, past, within)
      requires careful && abandonExpired ==> !Overtaken(views)
      modifies this`audit, this`chain, this`memory, this`sent
      ensures Good()
      ensures e == AbandonedExpired ==> Open(audit) == None
      ensures ActsOn(e, NotObserved, past, within, abandonExpired, rebroadcastSameRaw)
      ensures sent == old(sent) || sent == old(sent) + {raw}
    {
      if abandonExpired {
        e := Abandon(raw, views, answers);
      } else if rebroadcastSameRaw {
        e := Replay(raw, ObserveAll(setup, chain.blocks, raw, views));
      } else {
        e := StillOpen(NotObserved);
      }
    }

    /** The verdict on the readers' answers; a confirmed one comes with an outcome that stays. */
    method Judge(raw: Raw, views: seq<View>)
      returns (ghost answers: seq<Observation>, finding: Finding, outcome: Option<nat>)
      requires Good() && forall v :: v in views ==> ViewOf(v, chain.blocks)
      ensures Judged(raw, views, answers, finding)
      ensures finding.Confirmed? ==> Settled(chain, raw, outcome) && outcome.Some? == finding.success
    {
      var verdict := Classify(ObserveAll(setup, chain.blocks, raw, views), raw.nonce, setup.finality);
      answers := ObserveAll(setup, chain.blocks, raw, views);
      ConfirmedIsSettled(setup, chain, sent, raw, views);
      ClassifyExactlyWhen(answers, raw.nonce, setup.finality, verdict.finding);
      DeepIsSaid(raw, views);
      NotObservedDecides(answers, raw, setup.finality);
      finding := verdict.finding;
      outcome := if verdict.receipt.Some? then verdict.receipt.value.gross else None;
    }

    method CloseConfirmed(plan: Plan, outcome: Option<nat>) returns (e: Ending)
      requires Good() && Open(audit) == Some(SignedRecord(plan)) && Settled(chain, RawOf(plan), outcome)
      modifies this`audit, this`chain, this`memory, this`usdg, this`weth
      ensures e == Crashed || ClosesOrRefuses(e, outcome.Some?)
      ensures e == Completed || e == RevertedOnChain ==> Open(audit) == None
      ensures e == Completed ==> Recorded(State().Ledger(plan.lane), Keccak(RawOf(plan)))
      ensures Good()
      ensures e.Refused? ==> !Impossible(e.reason, careful)
    {
      match outcome
      case None => e := CloseReverted(Keccak(RawOf(plan)));
      case Some(gross) => e := ExecutionStateFromReceipt(plan, gross);
    }

    /** The code's own guard decides; whether it is right does not matter to the journal's safety. */
    method Abandon(raw: Raw, views: seq<View>, ghost answers: seq<Observation>) returns (e: Ending)
      requires Good() && IsOpen(audit, Keccak(raw))
      requires Answered(raw, views, answers)
      requires careful ==> !Overtaken(views)
      modifies this`audit, this`chain, this`memory
      ensures Good()
      ensures e == Crashed || e == Refused(NotAbandonable) || (e == AbandonedExpired && Open(audit) == None)
      ensures e == AbandonedExpired ==> AbandonmentAllowed(raw, answers)
      ensures e == Refused(NotAbandonable) ==> !AbandonmentAllowed(raw, answers)
    {
      var allowed := AbandonmentAllowed(raw, ObserveAll(setup, chain.blocks, raw, views));
      if !allowed {
        return Refused(NotAbandonable);
      }
      StepIsGood(Judges(views));
      memory := memory.(mayGiveUp := Some(Keccak(raw)));
      var alive := Pause(raw, None);
      if !alive {
        return Crashed;
      }
      AppendEnd(MutationAbandoned, Keccak(raw));
      e := AbandonedExpired;
    }

    method Replay(raw: Raw, observations: seq<Observation>) returns (e: Ending)
      requires Good() && Enabled(setup, State(), Sends(raw))
      modifies this`audit, this`sent
      ensures Good()
      ensures e == if ReplayAllowed(raw, observations) then Rebroadcast else Refused(NotReplayable)
      ensures e == Refused(NotReplayable) ==> sent == old(sent)
      ensures sent == old(sent) || sent == old(sent) + {raw}
    {
      if !ReplayAllowed(raw, observations) {
        return Refused(NotReplayable);
      }
      Resend(raw);
      e := Rebroadcast;
    }

    method Resend(raw: Raw)
      requires Good() && Enabled(setup, State(), Sends(raw))
      modifies this`audit, this`sent
      ensures Good() && (sent == old(sent) || sent == old(sent) + {raw})
    {
      Send(raw);
      AppendNote(Note());
    }

    // ---- any number of processes, one after another ----

    /** Whatever processes the operator starts, wherever each of them dies and whatever the readers answer, the
        journal stays safe, and the balances are the seed, the ledger, the open profit and what was given up
        although executed. The last is nothing when no reading that gave something up was overtaken. */
    method Operate(processes: nat)
      requires Good()
      modifies this
      ensures Good()
      ensures forall lane :: Balance(setup, chain.blocks, lane)
                             == setup.Seed(lane) + SumGross(State().Ledger(lane)) + Unrecorded(State(), lane)
                                + Lost(State(), lane)
      ensures careful ==> forall lane :: Lost(State(), lane) == 0
    {
      for i := 0 to processes
        invariant Good()
      {
        var lane: Lane, amountIn: int, ttl: int, createdAt: int := *, *, *, *;
        var abandon: bool, rebroadcast: bool, execute: bool := *, *, *;
        var e: Ending;
        ghost var views: seq<View>, seen: Blocks;
        if execute {
          if amountIn >= 0 && ttl > 0 && createdAt >= 0 {
            var queued: bool, queuedAgain: bool := *, *;
            e, seen := Execute(lane, amountIn, ttl, createdAt, queued, queuedAgain);
          }
        } else {
          e, views, seen := Reconcile(abandon, rebroadcast);
        }
      }
      forall lane
        ensures Balance(setup, chain.blocks, lane)
                == setup.Seed(lane) + SumGross(State().Ledger(lane)) + Unrecorded(State(), lane) + Lost(State(), lane)
        ensures careful ==> Lost(State(), lane) == 0
      {
        BalanceIsAccounted(setup, State(), lane);
        if careful {
          LedgerConserves(setup, State(), lane);
        }
      }
    }
  }
}
