// What giving up costs: on which readings it loses a profit in some run of the journal, and on which in none.
module GivingUp {
  import opened Evm
  import opened AuditLog
  import opened WalletChain
  import opened Reconciliation
  import opened MutationJournal
  import opened LedgerKeeping

  /** The readings allow giving up, and the open mutation is closed as abandoned. */
  function GivenUp(setup: Setup, s: State, views: seq<View>): State
    requires 0 < setup.finality && Enabled(setup, s, Judges(views))
  {
    Apply(setup, Apply(setup, s, Judges(views)), Ends(MutationAbandoned))
  }

  /** Wherever a run of the journal gives up on these readings, it loses nothing. */
  ghost predicate NeverLoses(views: seq<View>) {
    forall setup: Setup, s: State, lane: Lane ::
      0 < setup.finality && Reachable(setup, s) && Enabled(setup, s, Judges(views))
      ==> Lost(GivenUp(setup, s, views), lane) == Lost(s, lane)
  }

  lemma GivenUpLoses(setup: Setup, s: State, views: seq<View>, lane: Lane)
    requires 0 < setup.finality && Safe(setup, s) && Enabled(setup, s, Judges(views))
    ensures Lost(GivenUp(setup, s, views), lane) == Lost(s, lane) + Unrecorded(s, lane)
  {
    StepKeepsSafe(setup, s, Judges(views));
    GivingUpLoses(setup, Apply(setup, s, Judges(views)), lane);
  }

  lemma DeadIsNotUnrecorded(s: State, lane: Lane)
    requires Open(s.audit).Some? && Open(s.audit).value.hash.Some?
             && Dead(s.chain, Open(s.audit).value.hash.value.bytes)
    ensures Unrecorded(s, lane) == 0
  {
    var all, hash := Successes(s.chain.blocks, lane), Open(s.audit).value.hash.value;
    if Recorded(all, hash) {
      var k := GrossOfRecorded(all, hash);
      var i := EntryMined(s.chain.blocks, lane, k);
    } else {
      GrossOfUnrecorded(all, hash);
    }
  }

  // ---- the run into the trap ----

  /** Plan, read the balance, persist, sign, send. */
  lemma SignAndSend(setup: Setup, s: State, plan: Plan) returns (s': State)
    requires Reachable(setup, s) && Open(s.audit) == None
    requires s.chain.blocks != [] && Clock(s.chain) < plan.deadline && plan.nonce == NonceAt(setup, s.chain.blocks)
    requires plan.executorBaseBefore == Balance(setup, s.chain.blocks, plan.lane)
    ensures Reachable(setup, s') && IsOpen(s'.audit, Keccak(RawOf(plan))) && RawOf(plan) in s'.sent
    ensures s'.chain == s.chain && s'.usdg == s.usdg && s'.weth == s.weth
  {
    s' := ReadyToSign(setup, s, plan);
    NextTransactionIsFresh(setup, s', RawOf(plan));
    OpenAfter(s'.audit, SignedRecord(plan));
    s' := Take(setup, s', Signs(plan));
    s' := Take(setup, s', Sends(RawOf(plan)));
  }

  lemma ReadyToSign(setup: Setup, s: State, plan: Plan) returns (s': State)
    requires Reachable(setup, s) && Open(s.audit) == None
    requires plan.executorBaseBefore == Balance(setup, s.chain.blocks, plan.lane)
    ensures Reachable(setup, s') && Safe(setup, s') && 0 < setup.finality
    ensures s'.chain == s.chain && s'.usdg == s.usdg && s'.weth == s.weth
    ensures Open(s'.audit) == None && PlannedIn(s'.audit, plan) && s'.raws == s.raws[Keccak(RawOf(plan)) := RawOf(plan)]
    ensures s'.memory.read == Some(Reading(plan.lane, plan.executorBaseBefore))
  {
    var planned := Record(MutationPlan, None, Some(plan));
    ReachableIsSafe(setup, s);
    OpenAfter(s.audit, planned);
    s' := Take(setup, s, Notes(planned));
    assert s'.audit[|s.audit|] == planned;
    s' := Take(setup, s', Reads(plan.lane));
    s' := Take(setup, s', Persists(RawOf(plan)));
  }

  lemma Take(setup: Setup, s: State, step: Step) returns (s': State)
    requires 0 < setup.finality && Reachable(setup, s) && Enabled(setup, s, step)
    ensures s' == Apply(setup, s, step) && Reachable(setup, s') && Safe(setup, s')
  {
    s' := Apply(setup, s, step);
    ReachableStep(setup, s, step);
    ReachableIsSafe(setup, s');
  }

  function TrapPlan(i: nat): Plan
    requires 0 < i
  {
    Plan(0, UsdgLane, i - 1, i, 1, 1)
  }

  /** A run has built the trap up to height `i`, with nothing recorded. */
  ghost predicate AtHeight(k: nat, i: nat, s: State) {
    Reachable(TRAP_SETUP, s) && s.chain == TrapChain(k, i) && s.usdg == [] && s.weth == []
  }

  lemma {:induction false} TrapBalance(k: nat, n: nat, i: nat)
    requires 0 < i <= k && i <= n
    ensures Balance(TRAP_SETUP, TrapChain(k, n).blocks[..i], UsdgLane) == 1
  {
    assert TrapChain(k, n).blocks[..i][..i - 1] == TrapChain(k, n).blocks[..i - 1];
    if i > 1 {
      TrapBalance(k, n, i - 1);
    }
  }

  lemma TrapGrows(k: nat, i: nat, sent: set<Raw>)
    requires 0 < k && 0 < i && (i <= k ==> TrapRaw(i) in sent)
    ensures MayMove(TRAP_SETUP, TrapChain(k, i), sent, Move(i, TrapBlock(k, i)))
    ensures Moved(TRAP_SETUP, TrapChain(k, i), Move(i, TrapBlock(k, i))) == TrapChain(k, i + 1)
  {
    TrapNonces(k, i, i);
    assert Moved(TRAP_SETUP, TrapChain(k, i), Move(i, TrapBlock(k, i))).blocks == TrapChain(k, i + 1).blocks;
  }

  lemma TrapSigned(k: nat, i: nat, s: State) returns (s': State)
    requires 0 < i <= k && AtHeight(k, i, s) && Open(s.audit) == None
    ensures AtHeight(k, i, s') && IsOpen(s'.audit, Keccak(TrapRaw(i))) && TrapRaw(i) in s'.sent
  {
    var blocks := TrapChain(k, i).blocks;
    assert blocks[..i] == blocks;
    TrapNonces(k, i, i);
    TrapBalance(k, i, i);
    s' := SignAndSend(TRAP_SETUP, s, TrapPlan(i));
  }

  lemma TrapReverted(k: nat, i: nat, s: State) returns (s': State)
    requires 0 < i < k && AtHeight(k, i, s) && IsOpen(s.audit, Keccak(TrapRaw(i))) && TrapRaw(i) in s.sent
    ensures AtHeight(k, i + 1, s') && Open(s'.audit) == None
  {
    s' := TrapExtended(k, i, s);
    assert MinedAt(s'.chain.blocks, i, TrapRaw(i), None);
    OpenAfter(s'.audit, Record(MutationReverted, Open(s'.audit).value.hash, None));
    s' := Take(TRAP_SETUP, s', Ends(MutationReverted));
  }

  /** Up to height `i` every mutation was signed, mined, reverted and closed. */
  lemma {:induction false} TrapSet(k: nat, i: nat) returns (s: State)
    requires 0 < i <= k
    ensures AtHeight(k, i, s) && Open(s.audit) == None
  {
    if i == 1 {
      s := State([], map[], [], [], TrapChain(k, 1), {}, BLANK);
      assert Run(TRAP_SETUP, [s]);
    } else {
      s := TrapSet(k, i - 1);
      s := TrapSigned(k, i - 1, s);
      s := TrapReverted(k, i - 1, s);
    }
  }

  /** The one at `k` is executed, and the chain goes on without it being recorded. */
  lemma {:induction false} TrapSprung(k: nat, n: nat) returns (s: State)
    requires 0 < k < n
    ensures AtHeight(k, n, s) && IsOpen(s.audit, Keccak(TrapRaw(k)))
  {
    if n == k + 1 {
      s := TrapSet(k, k);
      s := TrapSigned(k, k, s);
    } else {
      s := TrapSprung(k, n - 1);
    }
    s := TrapExtended(k, n - 1, s);
  }

  lemma TrapExtended(k: nat, i: nat, s: State) returns (s': State)
    requires 0 < k && 0 < i && AtHeight(k, i, s) && (i <= k ==> TrapRaw(i) in s.sent)
    ensures AtHeight(k, i + 1, s') && s'.audit == s.audit
  {
    TrapGrows(k, i, s.sent);
    s' := Take(TRAP_SETUP, s, ChainMoves(Move(i, TrapBlock(k, i))));
  }

  /** An execution's profit is what its lane's successes say of its hash. */
  lemma GrossOfExecution(setup: Setup, c: Chain, sent: set<Raw>, lane: Lane, i: nat)
    requires ChainOk(setup, c, sent) && i < |Successes(c.blocks, lane)|
    ensures GrossOf(Successes(c.blocks, lane), Successes(c.blocks, lane)[i].hash) == Successes(c.blocks, lane)[i].gross
  {
    var all := Successes(c.blocks, lane);
    var j := GrossOfRecorded(all, all[i].hash);
    if i < j {
      EntriesDistinct(setup, c, sent, lane, i, j);
    } else if j < i {
      EntriesDistinct(setup, c, sent, lane, j, i);
    }
  }

  lemma TrapIsUnrecorded(k: nat, n: nat, s: State)
    requires 0 < k < n && AtHeight(k, n, s) && IsOpen(s.audit, Keccak(TrapRaw(k)))
    ensures Unrecorded(s, UsdgLane) == 1
  {
    ReachableIsSafe(TRAP_SETUP, s);
    assert s.chain.blocks[k] == TrapBlock(k, k);
    assert ExecutedAt(s.chain.blocks, k, TrapRaw(k));
    var i := ExecutionListed(s.chain.blocks, k, TrapRaw(k));
    GrossOfExecution(TRAP_SETUP, s.chain, s.sent, UsdgLane, i);
    assert !Recorded(s.Ledger(UsdgLane), Keccak(TrapRaw(k)));
  }

  lemma TrapIsJudged(k: nat, n: nat, s: State, views: seq<View>)
    requires 0 < k < n - 1 && AtHeight(k, n, s) && IsOpen(s.audit, Keccak(TrapRaw(k)))
    requires Quiet(views) && SkippedByAll(views, k)
    requires forall v :: v in views ==> ViewOf(v, s.chain.blocks)
    ensures Enabled(TRAP_SETUP, s, Judges(views))
  {
    TrapAllowed(k, n, views);
  }

  /** On readings that all jumped over one height, some run gives up an execution and its profit of one. */
  lemma OvertakenRunLoses(views: seq<View>)
    requires (forall v :: v in views ==> SeesFirst(v)) && Quiet(views) && Overtaken(views)
    ensures exists s: State :: Reachable(TRAP_SETUP, s) && Enabled(TRAP_SETUP, s, Judges(views))
                               && Lost(GivenUp(TRAP_SETUP, s, views), UsdgLane) == Lost(s, UsdgLane) + 1
  {
    var k := TrapHeight(views);
    var n := Tallest(views);
    var s := TrapSprung(k, n);
    TrapIsTallEnough(k, n, views);
    TrapIsJudged(k, n, s, views);
    ReachableIsSafe(TRAP_SETUP, s);
    TrapIsUnrecorded(k, n, s);
    GivenUpLoses(TRAP_SETUP, s, views, UsdgLane);
  }

  /** Over all runs of the journal: giving up on these readings never loses a profit exactly when the readings would
      never allow it, or no height was jumped over by every usable reader. */
  lemma GivingUpNeverLosesExactlyWhen(views: seq<View>)
    requires forall v :: v in views ==> SeesFirst(v)
    ensures NeverLoses(views) <==> !(Quiet(views) && Overtaken(views))
  {
    if Quiet(views) && Overtaken(views) {
      OvertakenRunLoses(views);
    } else {
      forall setup: Setup, s: State, lane: Lane
        | 0 < setup.finality && Reachable(setup, s) && Enabled(setup, s, Judges(views))
        ensures Lost(GivenUp(setup, s, views), lane) == Lost(s, lane)
      {
        var raw := Open(s.audit).value.hash.value.bytes;
        ReachableIsSafe(setup, s);
        AllowedIsQuiet(setup, s.chain.blocks, raw, views);
        AbandonmentIsRight(setup, s.chain, s.sent, raw, views);
        DeadIsNotUnrecorded(s, lane);
        GivenUpLoses(setup, s, views, lane);
      }
    }
  }
}
