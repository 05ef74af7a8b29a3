// The append-only audit log of signed mutations, and what a log written under the journal's discipline is like.
module AuditLog {
  import opened Evm

  datatype Lane = UsdgLane | WethLane

  /** A signed transaction as bytes: two transactions are the same bytes exactly when these agree. */
  datatype Raw = Raw(lane: Lane, nonce: nat, deadline: nat, amountIn: nat)

  /** keccak256 as an identity: equal hashes, equal bytes. */
  datatype Hash = HashOf(bytes: Raw)

  function Keccak(raw: Raw): Hash { HashOf(raw) }

  /** An immutable plan; `createdAt` makes two plans for the same transaction different plans. */
  datatype Plan = Plan(createdAt: nat, lane: Lane, nonce: nat, deadline: nat, amountIn: nat, executorBaseBefore: nat)

  /** The transaction a plan describes. */
  function RawOf(plan: Plan): Raw {
    Raw(plan.lane, plan.nonce, plan.deadline, plan.amountIn)
  }

  datatype Event =
    | MutationSigned
    | ExecutionSigned
    | DeploymentSigned
    | WithdrawalSigned
    | MutationEffect
    | MutationReverted
    | MutationAbandoned
    | ExecutionComplete
    | ExecutionReverted
    | DeploymentComplete
    | DeploymentRecovered
    | DeploymentReverted
    | WithdrawalComplete
    | WithdrawalReverted
    | MutationPlan
    | Other

  const SIGNED_EVENTS: set<Event> := {MutationSigned, ExecutionSigned, DeploymentSigned, WithdrawalSigned}

  const TERMINAL_EVENTS: set<Event> :=
    {MutationEffect, MutationReverted, MutationAbandoned, ExecutionComplete, ExecutionReverted, DeploymentComplete,
     DeploymentRecovered, DeploymentReverted, WithdrawalComplete, WithdrawalReverted}

  datatype Record = Record(event: Event, hash: Option<Hash>, plan: Option<Plan>)

  type Log = seq<Record>

  predicate IsSigned(r: Record) { r.event in SIGNED_EVENTS && r.hash.Some? }

  predicate Closes(r: Record, hash: Hash) { r.event in TERMINAL_EVENTS && r.hash == Some(hash) }

  predicate ClosedFrom(log: Log, start: nat, hash: Hash) {
    exists j :: start <= j < |log| && Closes(log[j], hash)
  }

  /** A signed record with nothing after it that closes its hash. */
  predicate Unresolved(log: Log, i: nat)
    requires i < |log|
  {
    IsSigned(log[i]) && !ClosedFrom(log, i + 1, log[i].hash.value)
  }

  // ---- the search the source does ----

  /** The latest unresolved record among the first `k`. */
  function LatestBelow(log: Log, k: nat): Option<Record>
    requires k <= |log|
  {
    if k == 0 then None
    else if Unresolved(log, k - 1) then Some(log[k - 1])
    else LatestBelow(log, k - 1)
  }

  function LatestUnresolved(log: Log): Option<Record> {
    LatestBelow(log, |log|)
  }

  method FindLatestUnresolved(log: Log) returns (r: Option<Record>)
    ensures r == LatestUnresolved(log)
    ensures r.None? <==> forall i :: 0 <= i < |log| ==> !Unresolved(log, i)
    ensures r.Some? ==> exists i :: 0 <= i < |log| && log[i] == r.value && Unresolved(log, i)
                                    && forall j :: i < j < |log| ==> !Unresolved(log, j)
  {
    var index := |log|;
    while index > 0
      invariant 0 <= index <= |log|
      invariant LatestUnresolved(log) == LatestBelow(log, index)
      invariant forall j: nat :: index <= j < |log| ==> !Unresolved(log, j)
    {
      index := index - 1;
      var record := log[index];
      if record.event in SIGNED_EVENTS && record.hash.Some? {
        var terminal := false;
        var j := index + 1;
        while j < |log| && !terminal
          invariant index < j <= |log|
          invariant terminal <==> exists i :: index < i < j && Closes(log[i], record.hash.value)
        {
          terminal := Closes(log[j], record.hash.value);
          j := j + 1;
        }
        assert Unresolved(log, index) <==> !terminal;
        if !terminal {
          return Some(record);
        }
      }
    }
    r := None;
  }

  // ---- the discipline ----

  /** The mutation in flight, kept record by record. */
  function Open(log: Log): Option<Record> {
    if log == [] then None
    else
      var last, front := log[|log| - 1], log[..|log| - 1];
      if IsSigned(last) then Some(last)
      else if Open(front).Some? && Open(front).value.hash.Some? && Closes(last, Open(front).value.hash.value) then None
      else Open(front)
  }

  predicate SignedIn(log: Log, hash: Hash) {
    exists i :: 0 <= i < |log| && IsSigned(log[i]) && log[i].hash.value == hash
  }

  predicate PlannedIn(log: Log, plan: Plan) {
    exists i :: 0 <= i < |log| && log[i].event == MutationPlan && log[i].plan == Some(plan)
  }

  /** What may be appended: a signature only of a fresh planned transaction with nothing in flight, a terminal
      only for what is in flight, anything else always. */
  predicate MayFollow(log: Log, r: Record) {
    if IsSigned(r) then
      && r.event == MutationSigned && r.plan.Some? && r.hash.value == Keccak(RawOf(r.plan.value))
      && Open(log) == None && !SignedIn(log, r.hash.value) && PlannedIn(log, r.plan.value)
    else if r.event in TERMINAL_EVENTS then
      Open(log).Some? && r.hash == Open(log).value.hash
    else true
  }

  predicate Disciplined(log: Log) {
    log == [] || (Disciplined(log[..|log| - 1]) && MayFollow(log[..|log| - 1], log[|log| - 1]))
  }

  lemma {:induction false} PrefixDisciplined(log: Log, k: nat)
    requires Disciplined(log) && k <= |log|
    ensures Disciplined(log[..k])
  {
    if k < |log| {
      PrefixDisciplined(log[..|log| - 1], k);
      assert log[..|log| - 1][..k] == log[..k];
    } else {
      assert log[..k] == log;
    }
  }

  lemma RecordMayFollow(log: Log, i: nat)
    requires Disciplined(log) && i < |log|
    ensures MayFollow(log[..i], log[i]) && Disciplined(log[..i])
  {
    PrefixDisciplined(log, i + 1);
    assert log[..i + 1][..i] == log[..i];
  }

  lemma ClosedSplit(log: Log, start: nat, hash: Hash)
    requires log != []
    ensures var n := |log| - 1;
            ClosedFrom(log, start, hash) <==> ClosedFrom(log[..n], start, hash) || (start <= n && Closes(log[n], hash))
  {
    var n := |log| - 1;
    forall j | start <= j < n && Closes(log[j], hash) ensures Closes(log[..n][j], hash) {
    }
    forall j | start <= j < n && Closes(log[..n][j], hash) ensures Closes(log[j], hash) {
    }
  }

  /** The open record is one of the log's own, unclosed. */
  lemma {:induction false} OpenIsUnresolved(log: Log) returns (i: nat)
    requires Disciplined(log) && Open(log).Some?
    ensures i < |log| && log[i] == Open(log).value && Unresolved(log, i)
  {
    var n := |log| - 1;
    if IsSigned(log[n]) {
      i := n;
    } else {
      i := OpenIsUnresolved(log[..n]);
      ClosedSplit(log, i + 1, log[i].hash.value);
    }
  }

  /** Every unresolved signature is the open one, and stands where the open one stands. */
  lemma {:induction false} UnresolvedIsOpen(log: Log, i: nat)
    requires Disciplined(log) && i < |log| && Unresolved(log, i)
    ensures Open(log) == Some(log[i])
    ensures forall j :: i < j < |log| ==> !IsSigned(log[j])
  {
    var n := |log| - 1;
    if i < n {
      var front := log[..n];
      ClosedSplit(log, i + 1, log[i].hash.value);
      assert Unresolved(front, i);
      UnresolvedIsOpen(front, i);
      forall j | i < j < |log| ensures !IsSigned(log[j]) {
        if j < n {
          assert !IsSigned(front[j]);
        }
      }
    }
  }

  /** Under the discipline the source's search finds the mutation in flight. */
  lemma LatestIsOpen(log: Log)
    requires Disciplined(log)
    ensures LatestUnresolved(log) == Open(log)
  {
    if Open(log).Some? {
      var i := OpenIsUnresolved(log);
      UnresolvedIsOpen(log, i);
      LatestFound(log, i, |log|);
    } else {
      forall i | 0 <= i < |log| ensures !Unresolved(log, i) {
        if Unresolved(log, i) {
          UnresolvedIsOpen(log, i);
        }
      }
      NothingFound(log, |log|);
    }
  }

  lemma {:induction false} LatestFound(log: Log, i: nat, k: nat)
    requires i < k <= |log| && Unresolved(log, i) && forall j :: i < j < k ==> !Unresolved(log, j)
    ensures LatestBelow(log, k) == Some(log[i])
  {
    if i < k - 1 {
      LatestFound(log, i, k - 1);
    }
  }

  lemma {:induction false} NothingFound(log: Log, k: nat)
    requires k <= |log| && forall j :: 0 <= j < k ==> !Unresolved(log, j)
    ensures LatestBelow(log, k) == None
  {
    if k > 0 {
      NothingFound(log, k - 1);
    }
  }

  // ---- what the discipline gives ----

  /** At most one signed mutation is unclosed. */
  lemma AtMostOneUnresolved(log: Log, i: nat, j: nat)
    requires Disciplined(log) && i < |log| && j < |log| && Unresolved(log, i) && Unresolved(log, j)
    ensures i == j
  {
    UnresolvedIsOpen(log, i);
    UnresolvedIsOpen(log, j);
  }

  /** Nothing is signed while another mutation is open, and nothing is signed twice. */
  lemma SignedOnlyWhenClosed(log: Log, i: nat, j: nat)
    requires Disciplined(log) && i < j < |log| && IsSigned(log[i]) && IsSigned(log[j])
    ensures LatestUnresolved(log[..j]) == None
    ensures exists c :: i < c < j && Closes(log[c], log[i].hash.value)
    ensures log[i].hash != log[j].hash
  {
    RecordMayFollow(log, j);
    LatestIsOpen(log[..j]);
    assert SignedIn(log[..j], log[i].hash.value) by {
      assert IsSigned(log[..j][i]);
    }
    if !ClosedFrom(log[..j], i + 1, log[i].hash.value) {
      assert Unresolved(log[..j], i);
      UnresolvedIsOpen(log[..j], i);
    }
  }

  /** A terminal record closes something signed before it. */
  lemma TerminalFollowsSignature(log: Log, c: nat)
    requires Disciplined(log) && c < |log| && log[c].event in TERMINAL_EVENTS
    ensures log[c].hash.Some? && exists i :: 0 <= i < c && IsSigned(log[i]) && log[i].hash == log[c].hash
  {
    RecordMayFollow(log, c);
    var i := OpenIsUnresolved(log[..c]);
    assert IsSigned(log[i]);
  }

  /** Each mutation is closed at most once. */
  lemma ClosedAtMostOnce(log: Log, c: nat, d: nat)
    requires Disciplined(log) && c < d < |log|
    requires log[c].event in TERMINAL_EVENTS && log[d].event in TERMINAL_EVENTS
    ensures log[c].hash != log[d].hash
  {
    if log[c].hash == log[d].hash {
      RecordMayFollow(log, d);
      var i := OpenIsUnresolved(log[..d]);
      TerminalFollowsSignature(log, c);
      var k :| 0 <= k < c && IsSigned(log[k]) && log[k].hash == log[c].hash;
      if k < i {
        SignedOnlyWhenClosed(log, k, i);
      } else if i < k {
        SignedOnlyWhenClosed(log, i, k);
      }
      assert Closes(log[..d][c], log[i].hash.value);
    }
  }

  /** The plan of everything signed is in the log before it. */
  lemma SignedIsPlanned(log: Log, i: nat)
    requires Disciplined(log) && i < |log| && IsSigned(log[i])
    ensures log[i].plan.Some? && PlannedIn(log[..i], log[i].plan.value)
    ensures log[i] == Record(MutationSigned, Some(Keccak(RawOf(log[i].plan.value))), log[i].plan)
  {
    RecordMayFollow(log, i);
  }

  /** A signed hash is open or has been closed. */
  lemma SignedIsOpenOrClosed(log: Log, hash: Hash)
    requires Disciplined(log) && SignedIn(log, hash)
    ensures (Open(log).Some? && Open(log).value.hash == Some(hash))
            || exists c :: 0 <= c < |log| && Closes(log[c], hash)
  {
    var i :| 0 <= i < |log| && IsSigned(log[i]) && log[i].hash.value == hash;
    if Unresolved(log, i) {
      UnresolvedIsOpen(log, i);
    } else {
      var c :| i + 1 <= c < |log| && Closes(log[c], hash);
    }
  }

  /** The open mutation has not been closed. */
  lemma OpenIsNotClosed(log: Log, c: nat)
    requires Disciplined(log) && Open(log).Some? && c < |log|
    ensures Open(log).value.hash.Some? && !Closes(log[c], Open(log).value.hash.value)
  {
    var i := OpenIsUnresolved(log);
    if c < i && log[c].event in TERMINAL_EVENTS {
      TerminalFollowsSignature(log, c);
      var k :| 0 <= k < c && IsSigned(log[k]) && log[k].hash == log[c].hash;
      SignedOnlyWhenClosed(log, k, i);
    }
  }
}
