// src/policy.mjs: what independent readers' observations of a signed transaction allow the journal to conclude.
module Reconciliation {
  import opened Evm
  import opened AuditLog
  import opened WalletChain

  /** A receipt as a reader returns it; a block hash identifies the chain up to and including the block. */
  datatype SeenReceipt = SeenReceipt(transactionHash: Hash, blockHash: Blocks, blockNumber: nat, gross: Option<nat>) {
    function Success(): bool { gross.Some? }
  }

  datatype Observation = Observation(
    source: nat,
    failed: bool,
    receipt: Option<SeenReceipt>,
    transaction: bool,
    latestNonce: nat,
    pendingNonce: nat,
    head: nat,
    headTimestamp: Option<nat>)

  datatype Finding =
    | Conflict
    | Confirmed(success: bool)
    | Provisional(success: bool)
    | Pending
    | NonceConflict
    | NotObserved
    | Unknown

  datatype Verdict = Verdict(finding: Finding, receipt: Option<SeenReceipt>)

  function Usable(observations: seq<Observation>): (r: seq<Observation>)
    ensures forall o :: o in r <==> o in observations && !o.failed
  {
    if observations == [] then []
    else (if observations[0].failed then [] else [observations[0]]) + Usable(observations[1..])
  }

  function WithReceipt(observations: seq<Observation>): (r: seq<Observation>)
    ensures forall o :: o in r <==> o in observations && o.receipt.Some?
  {
    if observations == [] then []
    else (if observations[0].receipt.Some? then [observations[0]] else []) + WithReceipt(observations[1..])
  }

  function Sources(observations: seq<Observation>): set<nat> {
    set o <- observations :: o.source
  }

  predicate Disagree(a: SeenReceipt, b: SeenReceipt) {
    a.transactionHash != b.transactionHash || a.blockHash != b.blockHash || a.Success() != b.Success()
  }

  function Confirmations(o: Observation): nat
    requires o.receipt.Some?
  {
    if o.receipt.value.blockNumber <= o.head then o.head - o.receipt.value.blockNumber + 1 else 0
  }

  function Classify(observations: seq<Observation>, nonce: nat, minConfirmations: nat): Verdict {
    var usable := Usable(observations);
    var receipts := WithReceipt(usable);
    if |receipts| > 1 && exists o :: o in receipts && Disagree(o.receipt.value, receipts[0].receipt.value)
    then Verdict(Conflict, None)
    else if |receipts| > 0 then
      var success := receipts[0].receipt.value.Success();
      Verdict(if minConfirmations <= Confirmations(receipts[0]) then Confirmed(success) else Provisional(success),
              receipts[0].receipt)
    else if exists o :: o in usable && o.transaction then Verdict(Pending, None)
    else if exists o :: o in usable && nonce < o.latestNonce then Verdict(NonceConflict, None)
    else if |Sources(usable)| >= 2 && forall o :: o in usable ==> o.latestNonce <= nonce && o.pendingNonce <= nonce
    then Verdict(NotObserved, None)
    else Verdict(Unknown, None)
  }

  /** A signed transaction may be given up only when two readers saw neither it nor its nonce and every reader's
      clock is past its deadline. */
  predicate AbandonmentAllowed(raw: Raw, observations: seq<Observation>) {
    && 0 < raw.deadline
    && Classify(observations, raw.nonce, 3).finding == NotObserved
    && forall o :: o in Usable(observations) ==> o.headTimestamp.Some? && raw.deadline < o.headTimestamp.value
  }

  /** The same bytes may be sent again only while no reader's clock is past the deadline. */
  predicate ReplayAllowed(raw: Raw, observations: seq<Observation>) {
    && 0 < raw.deadline
    && |Sources(Usable(observations))| >= 2
    && forall o :: o in Usable(observations) ==> o.headTimestamp.Some? && o.headTimestamp.value <= raw.deadline
  }

  // ---- what the verdict means ----

  predicate Answers(observations: seq<Observation>, o: Observation) { o in observations && !o.failed }

  ghost predicate Conflicting(observations: seq<Observation>) {
    exists o, p :: Answers(observations, o) && Answers(observations, p) && o.receipt.Some? && p.receipt.Some?
                   && Disagree(o.receipt.value, p.receipt.value)
  }

  /** The first answer that has a receipt: the one whose depth counts. */
  predicate FirstReceipt(observations: seq<Observation>, i: int) {
    && 0 <= i < |observations| && !observations[i].failed && observations[i].receipt.Some?
    && forall j :: 0 <= j < i ==> observations[j].failed || observations[j].receipt.None?
  }

  predicate DeepEnough(o: Observation, minConfirmations: nat)
    requires o.receipt.Some?
  {
    minConfirmations == 0 || o.receipt.value.blockNumber + minConfirmations <= o.head + 1
  }

  ghost predicate TwoSources(observations: seq<Observation>) {
    exists o, p :: Answers(observations, o) && Answers(observations, p) && o.source != p.source
  }

  ghost predicate NothingSeen(observations: seq<Observation>) {
    forall o :: Answers(observations, o) ==> o.receipt.None? && !o.transaction
  }

  ghost predicate NonceUnused(observations: seq<Observation>, nonce: nat) {
    forall o :: Answers(observations, o) ==> o.latestNonce <= nonce
  }

  ghost predicate NonceUnclaimed(observations: seq<Observation>, nonce: nat) {
    forall o :: Answers(observations, o) ==> o.pendingNonce <= nonce
  }

  /** What each finding says about the answers. */
  ghost predicate Says(observations: seq<Observation>, nonce: nat, minConfirmations: nat, finding: Finding) {
    match finding
    case Conflict => Conflicting(observations)
    case Confirmed(success) =>
      && !Conflicting(observations)
      && exists i :: FirstReceipt(observations, i) && observations[i].receipt.value.Success() == success
                     && DeepEnough(observations[i], minConfirmations)
    case Provisional(success) =>
      && !Conflicting(observations)
      && exists i :: FirstReceipt(observations, i) && observations[i].receipt.value.Success() == success
                     && !DeepEnough(observations[i], minConfirmations)
    case Pending =>
      && (forall o :: Answers(observations, o) ==> o.receipt.None?)
      && exists o :: Answers(observations, o) && o.transaction
    case NonceConflict => NothingSeen(observations) && !NonceUnused(observations, nonce)
    case NotObserved =>
      && NothingSeen(observations) && NonceUnused(observations, nonce) && NonceUnclaimed(observations, nonce)
      && TwoSources(observations)
    case Unknown =>
      && NothingSeen(observations) && NonceUnused(observations, nonce)
      && !(NonceUnclaimed(observations, nonce) && TwoSources(observations))
  }

  lemma UsableFirst(o: Observation, rest: seq<Observation>)
    ensures Usable([o] + rest) == (if o.failed then [] else [o]) + Usable(rest)
    ensures WithReceipt(Usable([o] + rest))
            == (if o.failed || o.receipt.None? then [] else [o]) + WithReceipt(Usable(rest))
  {
    assert ([o] + rest)[1..] == rest;
    if !o.failed {
      assert ([o] + Usable(rest))[1..] == Usable(rest);
      assert WithReceipt([o] + Usable(rest)) == (if o.receipt.Some? then [o] else []) + WithReceipt(Usable(rest));
    }
    assert [] + Usable(rest) == Usable(rest) && [] + WithReceipt(Usable(rest)) == WithReceipt(Usable(rest));
  }

  lemma {:induction false} FirstWithReceipt(observations: seq<Observation>) returns (i: nat)
    requires WithReceipt(Usable(observations)) != []
    ensures FirstReceipt(observations, i) && observations[i] == WithReceipt(Usable(observations))[0]
  {
    var rest := observations[1..];
    assert observations == [observations[0]] + rest;
    UsableFirst(observations[0], rest);
    if !observations[0].failed && observations[0].receipt.Some? {
      i := 0;
    } else {
      assert [] + WithReceipt(Usable(rest)) == WithReceipt(Usable(rest));
      var j := FirstWithReceipt(rest);
      i := j + 1;
      assert forall k :: 0 < k <= j ==> observations[k] == rest[k - 1];
    }
  }

  lemma TwoSourcesCount(observations: seq<Observation>)
    ensures |Sources(Usable(observations))| >= 2 <==> TwoSources(observations)
  {
    var sources := Sources(Usable(observations));
    if TwoSources(observations) {
      var o, p :| Answers(observations, o) && Answers(observations, p) && o.source != p.source;
      SubsetSize({o.source, p.source}, sources);
    } else if sources != {} {
      var o :| o in Usable(observations);
      assert sources == {o.source} by {
        forall source | source in sources ensures source == o.source {
          var p :| p in Usable(observations) && p.source == source;
          assert Answers(observations, o) && Answers(observations, p);
        }
      }
    }
  }

  /** Receipts disagree among themselves exactly when one disagrees with the first. */
  lemma ConflictIsConflicting(observations: seq<Observation>)
    requires WithReceipt(Usable(observations)) != []
    ensures var receipts := WithReceipt(Usable(observations));
            Conflicting(observations) <==> DisagreesWithFirst(receipts)
  {
    var receipts := WithReceipt(Usable(observations));
    assert receipts[0] in receipts;
    if Conflicting(observations) {
      var o, p :| Answers(observations, o) && Answers(observations, p) && o.receipt.Some? && p.receipt.Some?
                  && Disagree(o.receipt.value, p.receipt.value);
      assert o in receipts && p in receipts;
      FirstDisagrees(o.receipt.value, p.receipt.value, receipts[0].receipt.value);
    }
    if DisagreesWithFirst(receipts) {
      var o :| o in receipts && Disagree(o.receipt.value, receipts[0].receipt.value);
      assert Answers(observations, o) && Answers(observations, receipts[0]);
    }
  }

  predicate DisagreesWithFirst(receipts: seq<Observation>)
    requires receipts != [] && forall o :: o in receipts ==> o.receipt.Some?
  {
    exists o :: o in receipts && Disagree(o.receipt.value, receipts[0].receipt.value)
  }

  lemma FirstDisagrees(a: SeenReceipt, b: SeenReceipt, first: SeenReceipt)
    requires Disagree(a, b)
    ensures Disagree(a, first) || Disagree(b, first)
  {
  }

  lemma OneReceiptAgrees(receipts: seq<Observation>)
    requires |receipts| == 1 && receipts[0].receipt.Some?
    ensures !DisagreesWithFirst(receipts)
  {
  }

  /** What the answers say once one of them has a receipt. */
  lemma SaidOfReceipt(observations: seq<Observation>, nonce: nat, minConfirmations: nat, i: nat)
    requires FirstReceipt(observations, i)
    ensures forall finding :: Says(observations, nonce, minConfirmations, finding)
                              <==> finding == if Conflicting(observations) then Conflict
                                              else if DeepEnough(observations[i], minConfirmations)
                                              then Confirmed(observations[i].receipt.value.Success())
                                              else Provisional(observations[i].receipt.value.Success())
  {
    assert Answers(observations, observations[i]);
    forall j | FirstReceipt(observations, j) ensures j == i {
    }
  }

  /** And when none has. */
  lemma SaidWithoutReceipt(observations: seq<Observation>, nonce: nat, minConfirmations: nat)
    requires forall o :: Answers(observations, o) ==> o.receipt.None?
    ensures forall finding ::
              Says(observations, nonce, minConfirmations, finding)
              <==> finding == if !NothingSeen(observations) then Pending
                              else if !NonceUnused(observations, nonce) then NonceConflict
                              else if TwoSources(observations) && NonceUnclaimed(observations, nonce) then NotObserved
                              else Unknown
  {
    forall i ensures !FirstReceipt(observations, i) {
      if FirstReceipt(observations, i) {
        assert Answers(observations, observations[i]);
      }
    }
    assert !Conflicting(observations);
  }

  /** The verdict is a finding exactly when the answers say it. */
  lemma ClassifyExactlyWhen(observations: seq<Observation>, nonce: nat, minConfirmations: nat, finding: Finding)
    ensures Classify(observations, nonce, minConfirmations).finding == finding
            <==> Says(observations, nonce, minConfirmations, finding)
  {
    if WithReceipt(Usable(observations)) != [] {
      var i := ReceiptVerdict(observations, nonce, minConfirmations);
      SaidOfReceipt(observations, nonce, minConfirmations, i);
    } else {
      NoReceiptVerdict(observations, nonce, minConfirmations);
      assert forall o :: Answers(observations, o) && o.receipt.Some? ==> o in WithReceipt(Usable(observations));
      SaidWithoutReceipt(observations, nonce, minConfirmations);
    }
  }

  lemma ReceiptVerdict(observations: seq<Observation>, nonce: nat, minConfirmations: nat) returns (i: nat)
    requires WithReceipt(Usable(observations)) != []
    ensures FirstReceipt(observations, i)
    ensures Classify(observations, nonce, minConfirmations)
            == if Conflicting(observations) then Verdict(Conflict, None)
               else Verdict(if DeepEnough(observations[i], minConfirmations)
                            then Confirmed(observations[i].receipt.value.Success())
                            else Provisional(observations[i].receipt.value.Success()), observations[i].receipt)
  {
    var receipts := WithReceipt(Usable(observations));
    ConflictIsConflicting(observations);
    i := FirstWithReceipt(observations);
    if |receipts| == 1 {
      OneReceiptAgrees(receipts);
    }
  }

  lemma NoReceiptVerdict(observations: seq<Observation>, nonce: nat, minConfirmations: nat)
    requires WithReceipt(Usable(observations)) == []
    ensures Classify(observations, nonce, minConfirmations).finding
            == if !NothingSeen(observations) then Pending
               else if !NonceUnused(observations, nonce) then NonceConflict
               else if TwoSources(observations) && NonceUnclaimed(observations, nonce) then NotObserved
               else Unknown
  {
    TwoSourcesCount(observations);
    UsableSays(observations, nonce);
  }

  lemma UsableSays(observations: seq<Observation>, nonce: nat)
    requires WithReceipt(Usable(observations)) == []
    ensures var usable := Usable(observations);
            && (NothingSeen(observations) <==> !exists o :: o in usable && o.transaction)
            && (NonceUnused(observations, nonce) <==> !exists o :: o in usable && nonce < o.latestNonce)
            && (NonceUnused(observations, nonce) && NonceUnclaimed(observations, nonce)
                <==> forall o :: o in usable ==> o.latestNonce <= nonce && o.pendingNonce <= nonce)
  {
    var usable := Usable(observations);
    assert forall o :: o in usable <==> Answers(observations, o);
    assert forall o :: o in usable && o.receipt.Some? ==> o in WithReceipt(usable);
  }

  /** The clock of every reader that answers is at or before the deadline. */
  ghost predicate WithinDeadline(raw: Raw, observations: seq<Observation>) {
    forall o :: Answers(observations, o) ==> o.headTimestamp.Some? && o.headTimestamp.value <= raw.deadline
  }

  /** The clock of every reader that answers is past the deadline. */
  ghost predicate PastDeadline(raw: Raw, observations: seq<Observation>) {
    forall o :: Answers(observations, o) ==> o.headTimestamp.Some? && raw.deadline < o.headTimestamp.value
  }

  /** The same bytes may be sent again exactly when two readers answer and the clock of every one that does is at or
      before the deadline. */
  lemma ReplayAllowedExactlyWhen(raw: Raw, observations: seq<Observation>)
    ensures ReplayAllowed(raw, observations)
            <==> 0 < raw.deadline && TwoSources(observations) && WithinDeadline(raw, observations)
  {
    TwoSourcesCount(observations);
    assert forall o :: o in Usable(observations) <==> Answers(observations, o);
  }

  /** A mutation may be given up exactly when two readers answer, none saw it or its nonce, and the clock of every
      one is past the deadline. */
  lemma AbandonmentAllowedExactlyWhen(raw: Raw, observations: seq<Observation>)
    ensures AbandonmentAllowed(raw, observations)
            <==> 0 < raw.deadline && Says(observations, raw.nonce, 0, NotObserved) && PastDeadline(raw, observations)
  {
    ClassifyExactlyWhen(observations, raw.nonce, 3, NotObserved);
    assert forall o :: o in Usable(observations) <==> Answers(observations, o);
  }

  // ---- honest readers ----

  function LookUp(blocks: Blocks, raw: Raw): Option<SeenReceipt> {
    if blocks == [] then None
    else
      var last := blocks[|blocks| - 1];
      if last.receipt.Some? && last.receipt.value.raw == raw
      then Some(SeenReceipt(Keccak(raw), blocks, |blocks| - 1, last.receipt.value.gross))
      else LookUp(blocks[..|blocks| - 1], raw)
  }

  /** One reader's five lookups run concurrently: each sees the chain up to a height of its own. What the reader's
      mempool shows besides, whether the transaction itself (`pooled`) or how many transactions of the wallet
      (`queued`), is its own affair, and so is whether it fails. */
  datatype View = View(
    source: nat,
    failed: bool,
    headAt: nat,
    nonceAt: nat,
    pendingAt: nat,
    queued: nat,
    transactionAt: nat,
    pooled: bool,
    receiptAt: nat)

  /** Every lookup sees at least the first block. */
  predicate SeesFirst(view: View) {
    0 < view.headAt && 0 < view.nonceAt && 0 < view.pendingAt && 0 < view.transactionAt && 0 < view.receiptAt
  }

  predicate ViewOf(view: View, blocks: Blocks) {
    && SeesFirst(view)
    && view.headAt <= |blocks| && view.nonceAt <= |blocks| && view.pendingAt <= |blocks|
    && view.transactionAt <= |blocks| && view.receiptAt <= |blocks|
  }

  /** Four of the reader's lookups came before the block at height `k`, and its head came after it: the receipt, the
      transaction and the nonce were not there yet, neither was the pending nonce with whatever was queued. */
  predicate SkippedBy(view: View, k: nat) {
    && view.receiptAt <= k && view.transactionAt <= k && view.nonceAt <= k && view.pendingAt + view.queued <= k
    && k + 1 < view.headAt
  }

  function Highest(views: seq<View>): nat {
    if views == [] then 0
    else
      var rest := Highest(views[1..]);
      if rest < views[0].headAt then views[0].headAt else rest
  }

  /** Every usable reader's lookups jumped over one and the same height. */
  predicate Overtaken(views: seq<View>) {
    exists k :: 0 <= k < Highest(views) && SkippedByAll(views, k)
  }

  predicate SkippedByAll(views: seq<View>, k: nat) {
    forall v :: v in views && !v.failed ==> SkippedBy(v, k)
  }

  /** Two sources answered and no answer shows the transaction. */
  predicate Quiet(views: seq<View>) {
    && |AnsweringSources(views)| >= 2
    && forall v :: v in views && !v.failed ==> !v.pooled
  }

  function AnsweringSources(views: seq<View>): set<nat> {
    set v <- views | !v.failed :: v.source
  }

  function Observe(setup: Setup, blocks: Blocks, raw: Raw, view: View): Observation
    requires ViewOf(view, blocks)
  {
    Observation(view.source, view.failed, LookUp(blocks[..view.receiptAt], raw),
                view.pooled || LookUp(blocks[..view.transactionAt], raw).Some?,
                NonceAt(setup, blocks[..view.nonceAt]), NonceAt(setup, blocks[..view.pendingAt]) + view.queued,
                view.headAt - 1, Some(blocks[view.headAt - 1].time))
  }

  function ObserveAll(setup: Setup, blocks: Blocks, raw: Raw, views: seq<View>): (r: seq<Observation>)
    requires forall v :: v in views ==> ViewOf(v, blocks)
    ensures |r| == |views| && forall i :: 0 <= i < |r| ==> r[i] == Observe(setup, blocks, raw, views[i])
  {
    if views == [] then [] else [Observe(setup, blocks, raw, views[0])] + ObserveAll(setup, blocks, raw, views[1..])
  }

  lemma {:induction false} LookUpFinds(blocks: Blocks, raw: Raw)
    ensures match LookUp(blocks, raw)
            case None => forall i, gross :: 0 <= i < |blocks| ==> !MinedAt(blocks, i, raw, gross)
            case Some(seen) => MinedAt(blocks, seen.blockNumber, raw, seen.gross) && seen.transactionHash == Keccak(raw)
  {
    if blocks != [] {
      var n := |blocks| - 1;
      LookUpFinds(blocks[..n], raw);
      forall i, gross | 0 <= i < n && !MinedAt(blocks[..n], i, raw, gross) ensures !MinedAt(blocks, i, raw, gross) {
      }
    }
  }

  lemma ObservedBy(setup: Setup, blocks: Blocks, raw: Raw, views: seq<View>, o: Observation) returns (v: View)
    requires forall v :: v in views ==> ViewOf(v, blocks)
    requires o in ObserveAll(setup, blocks, raw, views)
    ensures v in views && o == Observe(setup, blocks, raw, v)
  {
    var all := ObserveAll(setup, blocks, raw, views);
    var i :| 0 <= i < |all| && all[i] == o;
    v := views[i];
  }

  /** A confirmation is never claimed without a receipt that stays in the chain with that outcome. */
  lemma ConfirmedIsSettled(setup: Setup, c: Chain, sent: set<Raw>, raw: Raw, views: seq<View>)
    requires ChainOk(setup, c, sent)
    requires forall v :: v in views ==> ViewOf(v, c.blocks)
    ensures var verdict := Classify(ObserveAll(setup, c.blocks, raw, views), raw.nonce, setup.finality);
            verdict.finding.Confirmed? ==>
              && verdict.receipt.Some? && verdict.receipt.value.transactionHash == Keccak(raw)
              && verdict.finding.success == verdict.receipt.value.Success()
              && Settled(c, raw, verdict.receipt.value.gross)
  {
    var observations := ObserveAll(setup, c.blocks, raw, views);
    var verdict := Classify(observations, raw.nonce, setup.finality);
    if verdict.finding.Confirmed? {
      var i := ConfirmedReceipt(observations, raw.nonce, setup.finality);
      var v := ObservedBy(setup, c.blocks, raw, views, observations[i]);
      LookUpFinds(c.blocks[..v.receiptAt], raw);
      assert MinedAt(c.blocks, observations[i].receipt.value.blockNumber, raw, observations[i].receipt.value.gross);
    }
  }

  lemma ConfirmedReceipt(observations: seq<Observation>, nonce: nat, minConfirmations: nat) returns (i: nat)
    requires Classify(observations, nonce, minConfirmations).finding.Confirmed?
    ensures var verdict := Classify(observations, nonce, minConfirmations);
            && FirstReceipt(observations, i) && verdict.receipt == observations[i].receipt
            && DeepEnough(observations[i], minConfirmations)
            && verdict.finding.success == observations[i].receipt.value.Success()
  {
    i := ReceiptVerdict(observations, nonce, minConfirmations);
  }

  /** Every lookup of the reader sees the chain to its end. */
  predicate SeesAll(view: View, blocks: Blocks) {
    view.headAt == view.nonceAt == view.pendingAt == view.transactionAt == view.receiptAt == |blocks|
  }

  /** Some reader answers, and every one that does sees everything. */
  predicate WholeViews(views: seq<View>, blocks: Blocks) {
    && (exists v :: v in views && !v.failed)
    && forall v :: v in views && !v.failed ==> SeesAll(v, blocks)
  }

  /** Mined with this outcome, and with enough blocks on top. */
  ghost predicate Deep(blocks: Blocks, finality: nat, raw: Raw, outcome: Option<nat>) {
    exists i: nat :: MinedAt(blocks, i, raw, outcome) && i + finality <= |blocks|
  }

  /** When every answering reader sees everything, what is mined deep enough is confirmed with its outcome: no execution
      or revert stays open for want of a verdict. */
  lemma DeepIsConfirmed(setup: Setup, c: Chain, sent: set<Raw>, raw: Raw, views: seq<View>, outcome: Option<nat>)
    requires ChainOk(setup, c, sent)
    requires (forall v :: v in views ==> ViewOf(v, c.blocks)) && WholeViews(views, c.blocks)
    requires Deep(c.blocks, setup.finality, raw, outcome)
    ensures var verdict := Classify(ObserveAll(setup, c.blocks, raw, views), raw.nonce, setup.finality);
            && verdict.finding == Confirmed(outcome.Some?)
            && verdict.receipt.Some? && verdict.receipt.value.gross == outcome
  {
    var i: nat :| MinedAt(c.blocks, i, raw, outcome) && i + setup.finality <= |c.blocks|;
    var seen := TheReceipt(setup, c, sent, raw, i, outcome);
    var o := WholeViewsAgree(setup, c.blocks, raw, views);
    AgreedIsConfirmed(ObserveAll(setup, c.blocks, raw, views), raw.nonce, setup.finality, seen, |c.blocks| - 1, o);
  }

  lemma WholeViewsAgree(setup: Setup, blocks: Blocks, raw: Raw, views: seq<View>) returns (o: Observation)
    requires (forall v :: v in views ==> ViewOf(v, blocks)) && WholeViews(views, blocks)
    ensures var observations := ObserveAll(setup, blocks, raw, views);
            && Answers(observations, o)
            && forall p :: Answers(observations, p) ==> p.receipt == LookUp(blocks, raw) && p.head == |blocks| - 1
  {
    var observations := ObserveAll(setup, blocks, raw, views);
    assert blocks[..|blocks|] == blocks;
    forall p | Answers(observations, p) ensures p.receipt == LookUp(blocks, raw) && p.head == |blocks| - 1 {
      var v := ObservedBy(setup, blocks, raw, views, p);
    }
    var v :| v in views && !v.failed;
    var k :| 0 <= k < |views| && views[k] == v;
    o := observations[k];
  }

  lemma AgreedIsConfirmed(observations: seq<Observation>, nonce: nat, minConfirmations: nat, seen: SeenReceipt,
                          head: nat, o: Observation)
    requires Answers(observations, o) && seen.blockNumber + minConfirmations <= head + 1
    requires forall p :: Answers(observations, p) ==> p.receipt == Some(seen) && p.head == head
    ensures Classify(observations, nonce, minConfirmations) == Verdict(Confirmed(seen.Success()), Some(seen))
  {
    assert o in WithReceipt(Usable(observations));
    var i := ReceiptVerdict(observations, nonce, minConfirmations);
    assert Answers(observations, observations[i]);
  }

  /** The only receipt the whole chain has for a mined transaction. */
  lemma TheReceipt(setup: Setup, c: Chain, sent: set<Raw>, raw: Raw, i: nat, outcome: Option<nat>)
    returns (seen: SeenReceipt)
    requires ChainOk(setup, c, sent) && MinedAt(c.blocks, i, raw, outcome)
    ensures LookUp(c.blocks, raw) == Some(seen) && seen.blockNumber == i && seen.gross == outcome
  {
    LookUpFinds(c.blocks, raw);
    seen := LookUp(c.blocks, raw).value;
    MinedOnce(setup, c, sent, i, seen.blockNumber);
  }

  /** An execution that readings allow to give up on lies at a height the reader jumped over. */
  lemma UnseenIsSkipped(setup: Setup, c: Chain, sent: set<Raw>, raw: Raw, views: seq<View>, v: View, i: nat)
    requires ChainOk(setup, c, sent)
    requires forall v :: v in views ==> ViewOf(v, c.blocks)
    requires AbandonmentAllowed(raw, ObserveAll(setup, c.blocks, raw, views))
    requires v in views && !v.failed && ExecutedAt(c.blocks, i, raw)
    ensures SkippedBy(v, i)
  {
    var o := AllowedReading(setup, c.blocks, raw, views, v);
    if i < v.receiptAt {
      FoundAbove(c.blocks, v.receiptAt, raw, i);
    }
    if i < v.transactionAt {
      FoundAbove(c.blocks, v.transactionAt, raw, i);
    }
    if i < v.nonceAt {
      MinedUsesNonce(setup, c, sent, i, v.nonceAt);
    }
    if i < v.pendingAt {
      MinedUsesNonce(setup, c, sent, i, v.pendingAt);
    }
    MinedAtMost(c.blocks, v.pendingAt, i);
    assert Minable(setup, c.blocks[..i], c.blocks[i], sent);
  }

  lemma {:induction false} MinedAtMost(blocks: Blocks, i: nat, j: nat)
    requires i <= |blocks| && j <= |blocks|
    ensures i <= j ==> Mined(blocks[..j]) <= Mined(blocks[..i]) + (j - i)
  {
    if i < j {
      assert blocks[..j][..j - 1] == blocks[..j - 1];
      MinedAtMost(blocks, i, j - 1);
    }
  }

  lemma AllowedReading(setup: Setup, blocks: Blocks, raw: Raw, views: seq<View>, v: View) returns (o: Observation)
    requires forall v :: v in views ==> ViewOf(v, blocks)
    requires AbandonmentAllowed(raw, ObserveAll(setup, blocks, raw, views)) && v in views && !v.failed
    ensures o == Observe(setup, blocks, raw, v)
    ensures raw.deadline < blocks[v.headAt - 1].time && !v.pooled
    ensures LookUp(blocks[..v.receiptAt], raw) == None && LookUp(blocks[..v.transactionAt], raw) == None
    ensures NonceAt(setup, blocks[..v.nonceAt]) <= raw.nonce
    ensures NonceAt(setup, blocks[..v.pendingAt]) + v.queued <= raw.nonce
  {
    var observations := ObserveAll(setup, blocks, raw, views);
    var k :| 0 <= k < |views| && views[k] == v;
    o := observations[k];
    assert o in observations && o in Usable(observations);
    NotObservedReadings(observations, raw.nonce, 3, o);
  }

  lemma NotObservedReadings(observations: seq<Observation>, nonce: nat, minConfirmations: nat, o: Observation)
    requires Classify(observations, nonce, minConfirmations).finding == NotObserved && o in Usable(observations)
    ensures o.receipt == None && !o.transaction && o.latestNonce <= nonce && o.pendingNonce <= nonce
  {
    var receipts := WithReceipt(Usable(observations));
    assert |receipts| == 0;
    assert o !in receipts;
  }

  lemma FoundAbove(blocks: Blocks, k: nat, raw: Raw, i: nat)
    requires i < k <= |blocks| && ExecutedAt(blocks, i, raw)
    ensures LookUp(blocks[..k], raw).Some?
  {
    LookUpFinds(blocks[..k], raw);
    assert MinedAt(blocks[..k], i, raw, blocks[i].receipt.value.gross);
  }

  /** Giving up needs answers, so some reader did not fail. */
  lemma SomeoneAnswered(setup: Setup, blocks: Blocks, raw: Raw, views: seq<View>) returns (v: View)
    requires forall v :: v in views ==> ViewOf(v, blocks)
    requires AbandonmentAllowed(raw, ObserveAll(setup, blocks, raw, views))
    ensures v in views && !v.failed
  {
    var usable := Usable(ObserveAll(setup, blocks, raw, views));
    var source :| source in Sources(usable);
    var o :| o in usable && o.source == source;
    v := ObservedBy(setup, blocks, raw, views, o);
  }

  /** The deadline has passed on the chain, whatever order the lookups came in. */
  lemma AbandonedHasExpired(setup: Setup, c: Chain, sent: set<Raw>, raw: Raw, views: seq<View>)
    requires ChainOk(setup, c, sent)
    requires forall v :: v in views ==> ViewOf(v, c.blocks)
    requires AbandonmentAllowed(raw, ObserveAll(setup, c.blocks, raw, views))
    ensures raw.deadline < Clock(c)
  {
    var v := SomeoneAnswered(setup, c.blocks, raw, views);
    var o := AllowedReading(setup, c.blocks, raw, views, v);
  }

  lemma {:induction false} HighestIsHighest(views: seq<View>, v: View)
    requires v in views
    ensures v.headAt <= Highest(views)
  {
    if v != views[0] {
      HighestIsHighest(views[1..], v);
    }
  }

  /** Giving up is right when no height was jumped over by every usable reader. */
  lemma AbandonmentIsRight(setup: Setup, c: Chain, sent: set<Raw>, raw: Raw, views: seq<View>)
    requires ChainOk(setup, c, sent)
    requires forall v :: v in views ==> ViewOf(v, c.blocks)
    requires AbandonmentAllowed(raw, ObserveAll(setup, c.blocks, raw, views))
    requires !Overtaken(views)
    ensures Dead(c, raw)
  {
    AbandonedHasExpired(setup, c, sent, raw, views);
    forall i | 0 <= i < |c.blocks| ensures !ExecutedAt(c.blocks, i, raw) {
      if ExecutedAt(c.blocks, i, raw) {
        forall v | v in views && !v.failed ensures SkippedBy(v, i) {
          UnseenIsSkipped(setup, c, sent, raw, views, v, i);
        }
        var v := SomeoneAnswered(setup, c.blocks, raw, views);
        HighestIsHighest(views, v);
        assert SkippedByAll(views, i);
      }
    }
  }

  // ---- a chain on which giving up is wrong ----

  /** One transaction a block, each with the block's height as its deadline. */
  function TrapRaw(i: nat): Raw
    requires 0 < i
  {
    Raw(UsdgLane, i - 1, i, 1)
  }

  /** An empty first block, transactions that revert below height `k`, the one at `k` executed in time, and empty
      late blocks after it. */
  function TrapBlock(k: nat, i: nat): Block {
    if i == 0 then Block(0, None)
    else if i < k then Block(i, Some(Receipt(TrapRaw(i), None)))
    else if i == k then Block(i, Some(Receipt(TrapRaw(i), Some(1))))
    else Block(k + 1, None)
  }

  function TrapChain(k: nat, n: nat): (c: Chain)
    ensures |c.blocks| == n && forall i :: 0 <= i < n ==> c.blocks[i] == TrapBlock(k, i)
  {
    Chain(seq<Block>(n, i requires 0 <= i => TrapBlock(k, i)), n)
  }

  const TRAP_SETUP := Setup(1, 0, 0, 1)

  function TrapSent(k: nat): set<Raw> {
    set i | 1 <= i <= k :: TrapRaw(i)
  }

  lemma {:induction false} TrapNonces(k: nat, n: nat, i: nat)
    requires i <= n && 0 < k
    ensures Mined(TrapChain(k, n).blocks[..i]) == if i == 0 then 0 else if i <= k then i - 1 else k
  {
    if i > 0 {
      TrapNonces(k, n, i - 1);
      assert TrapChain(k, n).blocks[..i][..i - 1] == TrapChain(k, n).blocks[..i - 1];
    }
  }

  lemma TrapIsOk(k: nat, n: nat)
    requires 0 < k < n - 1
    ensures ChainOk(TRAP_SETUP, TrapChain(k, n), TrapSent(k))
    ensures Settled(TrapChain(k, n), TrapRaw(k), Some(1))
  {
    var c := TrapChain(k, n);
    forall i | 0 <= i < n ensures Minable(TRAP_SETUP, c.blocks[..i], c.blocks[i], TrapSent(k)) {
      TrapNonces(k, n, i);
    }
    assert MinedAt(c.blocks, k, TrapRaw(k), Some(1));
  }

  lemma TrapNonceAt(k: nat, n: nat, i: nat)
    requires 0 < i <= k && i <= n
    ensures NonceAt(TRAP_SETUP, TrapChain(k, n).blocks[..i]) == i - 1
  {
    TrapNonces(k, n, i);
  }

  /** A reader that jumped over height `k` shows nothing of it and a head past its deadline. */
  lemma TrapReading(k: nat, n: nat, v: View)
    requires 0 < k < n - 1 && ViewOf(v, TrapChain(k, n).blocks) && SkippedBy(v, k)
    ensures var o := Observe(TRAP_SETUP, TrapChain(k, n).blocks, TrapRaw(k), v);
            && o.receipt == None && (o.transaction ==> v.pooled)
            && o.latestNonce < k && o.pendingNonce < k && o.headTimestamp == Some(k + 1)
  {
    TrapNonceAt(k, n, v.nonceAt);
    TrapNonceAt(k, n, v.pendingAt);
    NotYetThere(k, n, v.receiptAt);
    NotYetThere(k, n, v.transactionAt);
  }

  lemma NotYetThere(k: nat, n: nat, i: nat)
    requires 0 < k < n && i <= k
    ensures LookUp(TrapChain(k, n).blocks[..i], TrapRaw(k)) == None
  {
    LookUpFinds(TrapChain(k, n).blocks[..i], TrapRaw(k));
  }

  lemma TrapAllowed(k: nat, n: nat, views: seq<View>)
    requires 0 < k < n - 1 && Quiet(views) && SkippedByAll(views, k)
    requires forall v :: v in views ==> ViewOf(v, TrapChain(k, n).blocks)
    ensures AbandonmentAllowed(TrapRaw(k), ObserveAll(TRAP_SETUP, TrapChain(k, n).blocks, TrapRaw(k), views))
  {
    var blocks := TrapChain(k, n).blocks;
    var observations := ObserveAll(TRAP_SETUP, blocks, TrapRaw(k), views);
    var usable := Usable(observations);
    forall o | o in usable
      ensures o.receipt == None && !o.transaction && o.latestNonce < k && o.pendingNonce < k
              && o.headTimestamp == Some(k + 1)
    {
      var v := ObservedBy(TRAP_SETUP, blocks, TrapRaw(k), views, o);
      TrapReading(k, n, v);
    }
    SourcesAnswer(TRAP_SETUP, blocks, TrapRaw(k), views);
    QuietIsAllowed(TrapRaw(k), observations);
  }

  lemma QuietIsAllowed(raw: Raw, observations: seq<Observation>)
    requires 0 < raw.deadline && |Sources(Usable(observations))| >= 2
    requires forall o :: o in Usable(observations) ==>
               && o.receipt == None && !o.transaction && o.latestNonce <= raw.nonce && o.pendingNonce <= raw.nonce
               && o.headTimestamp.Some? && raw.deadline < o.headTimestamp.value
    ensures AbandonmentAllowed(raw, observations)
  {
    QuietIsNotObserved(observations, raw.nonce, 3);
  }

  lemma QuietIsNotObserved(observations: seq<Observation>, nonce: nat, minConfirmations: nat)
    requires |Sources(Usable(observations))| >= 2
    requires forall o :: o in Usable(observations) ==>
               o.receipt == None && !o.transaction && o.latestNonce <= nonce && o.pendingNonce <= nonce
    ensures Classify(observations, nonce, minConfirmations).finding == NotObserved
  {
    NoReceipts(Usable(observations));
  }

  lemma SourcesAnswer(setup: Setup, blocks: Blocks, raw: Raw, views: seq<View>)
    requires forall v :: v in views ==> ViewOf(v, blocks)
    ensures Sources(Usable(ObserveAll(setup, blocks, raw, views))) == AnsweringSources(views)
  {
    var observations := ObserveAll(setup, blocks, raw, views);
    forall v | v in views && !v.failed ensures v.source in Sources(Usable(observations)) {
      var i :| 0 <= i < |views| && views[i] == v;
      assert observations[i] in Usable(observations);
    }
    forall o | o in Usable(observations) ensures o.source in AnsweringSources(views) {
      var v := ObservedBy(setup, blocks, raw, views, o);
    }
  }

  lemma {:induction false} NoReceipts(observations: seq<Observation>)
    requires forall o :: o in observations ==> o.receipt == None
    ensures WithReceipt(observations) == []
  {
    if observations != [] {
      NoReceipts(observations[1..]);
    }
  }

  // ---- the exact condition ----

  /** On this chain, for this transaction: the readings do not allow giving up, or giving up is right. */
  predicate RightOn(setup: Setup, c: Chain, raw: Raw, views: seq<View>)
    requires forall v :: v in views ==> ViewOf(v, c.blocks)
  {
    AbandonmentAllowed(raw, ObserveAll(setup, c.blocks, raw, views)) ==> Dead(c, raw)
  }

  /** On every chain tall enough for the readings. */
  ghost predicate AlwaysRight(views: seq<View>) {
    forall setup: Setup, c: Chain, sent: set<Raw>, raw: Raw ::
      ChainOk(setup, c, sent) && (forall v :: v in views ==> ViewOf(v, c.blocks)) ==> RightOn(setup, c, raw, views)
  }

  /** Giving up is right on every chain exactly when the readings would never allow it, or no height was jumped
      over by every usable reader. Only the order and the heights of the lookups decide. */
  lemma AbandonmentIsRightExactlyWhen(views: seq<View>)
    requires forall v :: v in views ==> SeesFirst(v)
    ensures AlwaysRight(views) <==> !(Quiet(views) && Overtaken(views))
  {
    if Quiet(views) && Overtaken(views) {
      AbandonmentCanBeWrong(views);
    } else {
      forall setup: Setup, c: Chain, sent: set<Raw>, raw: Raw
        | ChainOk(setup, c, sent) && (forall v :: v in views ==> ViewOf(v, c.blocks))
        ensures RightOn(setup, c, raw, views)
      {
        if AbandonmentAllowed(raw, ObserveAll(setup, c.blocks, raw, views)) {
          AllowedIsQuiet(setup, c.blocks, raw, views);
          AbandonmentIsRight(setup, c, sent, raw, views);
        }
      }
    }
  }

  lemma AllowedHasSources(raw: Raw, observations: seq<Observation>)
    requires AbandonmentAllowed(raw, observations)
    ensures |Sources(Usable(observations))| >= 2
  {
  }

  lemma AllowedIsQuiet(setup: Setup, blocks: Blocks, raw: Raw, views: seq<View>)
    requires forall v :: v in views ==> ViewOf(v, blocks)
    requires AbandonmentAllowed(raw, ObserveAll(setup, blocks, raw, views))
    ensures Quiet(views)
  {
    SourcesAnswer(setup, blocks, raw, views);
    AllowedHasSources(raw, ObserveAll(setup, blocks, raw, views));
    forall v | v in views && !v.failed ensures !v.pooled {
      var o := AllowedReading(setup, blocks, raw, views, v);
    }
  }

  /** One usable reader whose head is at most one block past one of its other lookups rules the failure out. */
  lemma HeadInTimeIsEnough(views: seq<View>, v: View)
    requires v in views && !v.failed
    requires v.headAt <= v.receiptAt + 1 || v.headAt <= v.transactionAt + 1 || v.headAt <= v.nonceAt + 1
             || v.headAt <= v.pendingAt + v.queued + 1
    ensures !Overtaken(views)
  {
    forall k ensures !SkippedByAll(views, k) {
      assert !SkippedBy(v, k);
    }
  }

  function Highs(v: View): nat { v.headAt + v.nonceAt + v.pendingAt + v.transactionAt + v.receiptAt }

  /** No lower than any lookup. */
  function Tallest(views: seq<View>): (n: nat)
    ensures forall v :: v in views ==> Highs(v) <= n
  {
    if views == [] then 0 else Tallest(views[1..]) + Highs(views[0])
  }

  /** The five lookups are not one snapshot. Whenever every usable reader jumped over one height, the transaction
      can have been executed there: giving up is allowed although the execution stands. */
  lemma AbandonmentCanBeWrong(views: seq<View>)
    requires (forall v :: v in views ==> SeesFirst(v)) && Quiet(views) && Overtaken(views)
    ensures exists c: Chain, sent: set<Raw>, raw: Raw ::
              && ChainOk(TRAP_SETUP, c, sent) && (forall v :: v in views ==> ViewOf(v, c.blocks))
              && AbandonmentAllowed(raw, ObserveAll(TRAP_SETUP, c.blocks, raw, views)) && Settled(c, raw, Some(1))
    ensures !AlwaysRight(views)
  {
    var k := TrapHeight(views);
    var n := Tallest(views);
    TrapIsOk(k, n);
    TrapIsTallEnough(k, n, views);
    TrapAllowed(k, n, views);
    TrapIsNotDead(k, n);
    assert !RightOn(TRAP_SETUP, TrapChain(k, n), TrapRaw(k), views);
  }

  lemma TrapIsNotDead(k: nat, n: nat)
    requires 0 < k < n
    ensures !Dead(TrapChain(k, n), TrapRaw(k))
  {
    assert ExecutedAt(TrapChain(k, n).blocks, k, TrapRaw(k));
  }

  lemma TrapIsTallEnough(k: nat, n: nat, views: seq<View>)
    requires forall v :: v in views ==> SeesFirst(v) && Highs(v) <= n
    ensures forall v :: v in views ==> ViewOf(v, TrapChain(k, n).blocks)
  {
  }

  lemma TrapHeight(views: seq<View>) returns (k: nat)
    requires (forall v :: v in views ==> SeesFirst(v)) && Quiet(views) && Overtaken(views)
    ensures 0 < k < Tallest(views) - 1 && SkippedByAll(views, k)
  {
    k :| 0 <= k < Highest(views) && SkippedByAll(views, k);
    var source :| source in AnsweringSources(views);
    var v :| v in views && !v.failed && v.source == source;
    assert SkippedBy(v, k) && Highs(v) <= Tallest(views);
  }

  /** Two readers, each with its head two blocks past its other lookups. */
  lemma OvertakenReadings()
    ensures var views := [View(0, false, 3, 1, 1, 0, 1, false, 1), View(1, false, 3, 1, 1, 0, 1, false, 1)];
            Quiet(views) && Overtaken(views) && !AlwaysRight(views)
  {
    var views := [View(0, false, 3, 1, 1, 0, 1, false, 1), View(1, false, 3, 1, 1, 0, 1, false, 1)];
    assert views[0].source in AnsweringSources(views) && views[1].source in AnsweringSources(views);
    SubsetSize({0, 1}, AnsweringSources(views));
    HighestIsHighest(views, views[0]);
    assert SkippedByAll(views, 1);
    AbandonmentCanBeWrong(views);
  }

  lemma {:induction false} SubsetSize(small: set<nat>, large: set<nat>)
    requires small <= large
    ensures |small| <= |large|
  {
    if small != {} {
      var x :| x in small;
      SubsetSize(small - {x}, large - {x});
    }
  }
}
