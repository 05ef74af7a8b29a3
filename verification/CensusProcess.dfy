// The census process: start up, notice reorganisations, scan chunk by chunk, and survive being killed anywhere.
module CensusProcess {
  import opened Evm
  import opened LogScanner

  /** The last block that is far enough behind the head to be scanned. */
  function SafeHead(cfg: Config, chain: Chain): (r: nat)
    requires chain != []
    ensures r < |chain|
  {
    var head := |chain| - 1;
    if head > cfg.safeLag then head - cfg.safeLag else 0
  }

  // ---- what is on disk ----

  /** Where `verifyCursor` goes back to. */
  function Rewind(st: ScanState): nat
    requires st.cursor.Some?
  {
    var rewind := if st.cursor.value.block > REWIND_BLOCKS then st.cursor.value.block - REWIND_BLOCKS else st.start;
    if rewind > st.start then rewind else st.start
  }

  predicate Shape(cfg: Config, st: ScanState) {
    && st.start <= st.next && MIN_CHUNK <= st.chunk <= cfg.chunkBlocks
    && (st.cursor.Some? ==>
        st.start <= st.cursor.value.block && st.cursor.value.block + 1 == st.next == |st.cursor.value.hash|)
  }

  /** The block at the cursor is still the one the cursor was written for. */
  predicate CursorMatches(chain: Chain, st: ScanState) {
    st.cursor.Some? && st.next <= |chain| && chain[..st.next] == st.cursor.value.hash
  }

  /** Records past the cursor, left by a chunk that was never committed, are still the chain's. */
  predicate TailStands(chain: Chain, events: seq<Record>, next: nat) {
    forall e :: e in events && next <= e.block ==> Canonical(chain, e)
  }

  /** No record of the blocks a rewind would drop is missing from the file. */
  predicate Untorn(st: ScanState, events: seq<Record>)
    requires st.cursor.Some? && st.next == |st.cursor.value.hash|
  {
    var hash := st.cursor.value.hash;
    forall f :: f in Logs(hash, Rewind(st), st.next) && f.tx.cycle && f.block < |hash| ==>
      Record(f.tx.id, f.block, hash[..f.block + 1]) in events
  }

  /** The shape of the files, in every run: no evidence twice, the cursor and the chunk within their bounds, and
      a chain that agrees with the cursor's own up to the rewind point. */
  ghost predicate DiskSane(cfg: Config, events: seq<Record>, file: Option<ScanState>, chain: Chain) {
    && ChainOk(chain) && DistinctIds(events)
    && match file
       case None => events == []
       case Some(st) =>
         && Shape(cfg, st)
         && (forall e :: e in events ==> st.start <= e.block)
         && match st.cursor {
              case None => st.next <= |chain|
              case Some(cursor) =>
                Rewind(st) <= |chain| && chain[..Rewind(st)] == cursor.hash[..Rewind(st)] && ChainOk(cursor.hash)
            }
  }

  /** What they cover: what the cursor's own chain says, or, when a rewind was cut short between its two writes,
      that chain up to the rewind point and nothing after. */
  ghost predicate DiskCovers(events: seq<Record>, file: Option<ScanState>, chain: Chain) {
    match file
    case None => true
    case Some(st) =>
      match st.cursor {
        case None => Covered(chain, events, st.start, st.next)
        case Some(cursor) => Covered(cursor.hash, events, st.start, st.next) || TornOff(st, events)
      }
  }

  ghost predicate DiskOk(cfg: Config, events: seq<Record>, file: Option<ScanState>, chain: Chain) {
    DiskSane(cfg, events, file, chain) && DiskCovers(events, file, chain)
  }

  ghost predicate TornOff(st: ScanState, events: seq<Record>)
    requires st.cursor.Some?
  {
    Covered(st.cursor.value.hash, events, st.start, Rewind(st)) && forall e :: e in events ==> e.block < Rewind(st)
  }

  /** The chain between two runs: nothing before the rewind point changes, or before the next block when there is
      no cursor. */
  predicate MayBecome(chain: Chain, chain': Chain, file: Option<ScanState>) {
    && ChainOk(chain')
    && match file
       case None => true
       case Some(st) =>
         var floor := if st.cursor.Some? then Rewind(st) else st.next;
         floor <= |chain| && floor <= |chain'| && chain[..floor] == chain'[..floor]
  }

  /** What can be checked before a process is started: if the startup check is going to accept the cursor, the file
      was not cut short by an interrupted rewind and its uncommitted tail is still canonical. */
  predicate Startable(events: seq<Record>, file: Option<ScanState>, chain: Chain) {
    match file
    case None => true
    case Some(st) =>
      if st.cursor.None? then TailStands(chain, events, st.next)
      else CursorMatches(chain, st) && st.next == |st.cursor.value.hash| ==>
             Untorn(st, events) && TailStands(chain, events, st.next)
  }

  lemma ReorgKeepsDisk(cfg: Config, events: seq<Record>, file: Option<ScanState>, chain: Chain, chain': Chain)
    requires DiskSane(cfg, events, file, chain) && MayBecome(chain, chain', file)
    ensures DiskSane(cfg, events, file, chain')
    ensures DiskCovers(events, file, chain) ==> DiskCovers(events, file, chain')
  {
    if file.Some? && file.value.cursor.None? && DiskCovers(events, file, chain) {
      CoveredByPrefix(chain, chain', events, file.value.start, file.value.next);
    }
  }

  lemma UntornHas(st: ScanState, events: seq<Record>, r: Record)
    requires st.cursor.Some? && st.next == |st.cursor.value.hash| && Untorn(st, events)
    requires Canonical(st.cursor.value.hash, r) && Rewind(st) <= r.block < st.next
    ensures r in events
  {
    var hash := st.cursor.value.hash;
    CanonicalIsFound(hash, Rewind(st), st.next, r);
    var found := Logs(hash, Rewind(st), st.next);
    var k :| 0 <= k < |found| && ReviewedRecord(hash, found[k]) == Some(r);
    assert found[k] in found;
  }

  lemma UntornIsCovered(st: ScanState, events: seq<Record>)
    requires st.cursor.Some? && st.start <= st.cursor.value.block
             && st.cursor.value.block + 1 == st.next == |st.cursor.value.hash|
    requires Covered(st.cursor.value.hash, events, st.start, st.next) || TornOff(st, events)
    requires Untorn(st, events)
    ensures Covered(st.cursor.value.hash, events, st.start, st.next)
  {
    var hash := st.cursor.value.hash;
    if TornOff(st, events) {
      forall r: Record | st.start <= r.block < st.next ensures r in events <==> Canonical(hash, r) {
        if Rewind(st) <= r.block && Canonical(hash, r) {
          UntornHas(st, events, r);
        }
      }
    }
  }

  /** What a start on these files gives when the startup check accepts them as they are. */
  ghost predicate Covering(chain: Chain, events: seq<Record>, st: ScanState) {
    Covered(chain, events, st.start, st.next) && TailStands(chain, events, st.next)
  }

  predicate Accepted(chain: Chain, st: ScanState) { st.cursor.None? || CursorMatches(chain, st) }

  /** A start the check accepts covers exactly the range up to the cursor, with a tail that stands, if and only if
      the files are `Startable`, which can be seen before the process is started. */
  lemma AcceptedCoversExactlyWhen(cfg: Config, events: seq<Record>, st: ScanState, chain: Chain)
    requires DiskOk(cfg, events, Some(st), chain) && Accepted(chain, st)
    ensures Covering(chain, events, st) <==> Startable(events, Some(st), chain)
  {
    if st.cursor.Some? {
      var hash := st.cursor.value.hash;
      assert hash == hash[..st.next];
      if Startable(events, Some(st), chain) {
        UntornIsCovered(st, events);
        CoveredByPrefix(hash, chain, events, st.start, st.next);
      }
      if Covering(chain, events, st) {
        CoveredByPrefix(chain, hash, events, st.start, st.next);
        CoveredIsUntorn(st, events);
      }
    }
  }

  /** An interrupted rewind whose cursor the chain comes back to covers its range exactly when the dropped blocks
      had no record to lose. */
  lemma TornCoversExactlyWhen(cfg: Config, events: seq<Record>, st: ScanState, chain: Chain)
    requires DiskOk(cfg, events, Some(st), chain) && st.cursor.Some? && TornOff(st, events) && CursorMatches(chain, st)
    ensures Covered(chain, events, st.start, st.next)
            <==> forall r: Record :: Rewind(st) <= r.block < st.next ==> !Canonical(chain, r)
  {
    var hash := st.cursor.value.hash;
    assert hash == hash[..st.next];
    assert hash[..Rewind(st)] == chain[..st.next][..Rewind(st)] == chain[..Rewind(st)];
    CoveredByPrefix(hash, chain, events, st.start, Rewind(st));
  }

  lemma CoveredIsUntorn(st: ScanState, events: seq<Record>)
    requires st.cursor.Some? && st.start <= st.cursor.value.block
             && st.cursor.value.block + 1 == st.next == |st.cursor.value.hash|
    requires Covered(st.cursor.value.hash, events, st.start, st.next)
    ensures Untorn(st, events)
  {
    var hash := st.cursor.value.hash;
    forall f | f in Logs(hash, Rewind(st), st.next) && f.tx.cycle && f.block < |hash|
      ensures Record(f.tx.id, f.block, hash[..f.block + 1]) in events
    {
      var found := Logs(hash, Rewind(st), st.next);
      var k :| 0 <= k < |found| && found[k] == f;
      var r := Record(f.tx.id, f.block, hash[..f.block + 1]);
      assert ReviewedRecord(hash, found[k]) == Some(r);
      FoundIsCanonical(hash, Rewind(st), st.next, r);
    }
  }

  // ---- the retention start ----

  /** Timestamps never decrease along a chain. */
  predicate Ordered(chain: Chain) {
    forall i, j :: 0 <= i <= j < |chain| ==> chain[i].time <= chain[j].time
  }

  /** The first block that is recent enough, or `head` when none before it is. */
  method FindRetentionStart(chain: Chain, head: nat, cutoff: nat) returns (low: nat)
    requires Ordered(chain) && head < |chain|
    ensures low <= head
    ensures forall i :: 0 <= i < low ==> chain[i].time < cutoff
    ensures forall i :: low <= i < head ==> cutoff <= chain[i].time
  {
    low := 0;
    var high := head;
    while low < high
      invariant low <= high <= head
      invariant forall i :: 0 <= i < low ==> chain[i].time < cutoff
      invariant forall i :: high <= i < head ==> cutoff <= chain[i].time
    {
      var middle := (low + high) / 2;
      if chain[middle].time < cutoff {
        low := middle + 1;
      } else {
        high := middle;
      }
    }
  }

  // ---- retaining ----

  function Retain(events: seq<Record>, before: nat): (r: seq<Record>)
    ensures forall e :: e in r <==> e in events && e.block < before
  {
    if events == [] then []
    else
      var front, last := Retain(events[..|events| - 1], before), events[|events| - 1];
      if last.block < before then front + [last] else front
  }

  lemma {:induction false} RetainKeepsDistinct(events: seq<Record>, before: nat)
    requires DistinctIds(events)
    ensures DistinctIds(Retain(events, before))
  {
    if events != [] {
      var n := |events| - 1;
      RetainKeepsDistinct(events[..n], before);
      var front := Retain(events[..n], before);
      forall i | 0 <= i < |front| ensures front[i].evidenceId != events[n].evidenceId {
        assert front[i] in front && front[i] in events[..n];
      }
    }
  }

  // ---- the process ----

  datatype Outcome = Crashed | Threw | Returned(st: ScanState)

  class Census {
    const cfg: Config

    // On disk.
    var events: seq<Record>
    var file: Option<ScanState>

    // What the node serves.
    var chain: Chain

    constructor (cfg: Config, chain: Chain)
      requires cfg.Valid() && ChainOk(chain)
      ensures this.cfg == cfg && Files(true) && Startable(events, file, this.chain)
    {
      this.cfg, this.chain, events, file := cfg, chain, [], None;
    }

    /** What a running process holds after its startup check, whatever the files were. */
    ghost predicate Tidy(st: ScanState)
      reads this
    {
      && cfg.Valid() && ChainOk(chain) && DistinctIds(events) && Shape(cfg, st)
      && st.next <= |chain|
      && (forall e :: e in events ==> st.start <= e.block)
      && (st.cursor.Some? ==> chain[..st.next] == st.cursor.value.hash)
    }

    /** Tidy, and, when the files were good, covering exactly the range up to the next block. Every contract below
        holds for either value of `good`. */
    ghost predicate Live(good: bool, st: ScanState)
      reads this
    {
      Tidy(st) && (good ==> Covering(chain, events, st))
    }

    ghost predicate Files(good: bool)
      reads this
    {
      cfg.Valid() && DiskSane(cfg, events, file, chain) && (good ==> DiskCovers(events, file, chain))
    }

    lemma LiveIsFiled(good: bool, st: ScanState)
      requires Live(good, st)
      ensures DiskSane(cfg, events, Some(st), chain)
      ensures good ==> DiskCovers(events, Some(st), chain) && Startable(events, Some(st), chain)
    {
      if st.cursor.Some? {
        var hash := st.cursor.value.hash;
        assert hash == hash[..st.next];
        assert chain[..Rewind(st)] == chain[..st.next][..Rewind(st)];
        PrefixChainOk(st.next);
        if good {
          CoveredByPrefix(chain, hash, events, st.start, st.next);
          CoveredIsUntorn(st, events);
        }
      }
    }

    lemma PrefixChainOk(k: nat)
      requires ChainOk(chain) && 0 < k <= |chain|
      ensures ChainOk(chain[..k])
    {
    }

    /** The node's chain only grows while the process runs. */
    method Grow(ghost good: bool, ghost st: ScanState)
      requires Live(good, st)
      modifies this`chain
      ensures Live(good, st) && old(chain) <= chain
    {
      var longer: Chain := *;
      if |chain| <= |longer| && longer[..|chain|] == chain && ChainOk(longer) {
        if good {
          CoveredByPrefix(chain, longer, events, st.start, st.next);
          forall e | e in events && st.next <= e.block ensures Canonical(longer, e) {
            CanonicalInPrefix(chain, longer, |chain|, e);
          }
        }
        assert longer[..st.next] == longer[..|chain|][..st.next];
        chain := longer;
      }
    }

    // ---- one chunk ----

    function Halved(chunk: nat): nat { if chunk / 2 > MIN_CHUNK then chunk / 2 else MIN_CHUNK }

    function Doubled(chunk: nat): nat { if chunk * 2 < cfg.chunkBlocks then chunk * 2 else cfg.chunkBlocks }

    function Committed(st: ScanState, next: nat): ScanState
      reads this
      requires 0 < next <= |chain|
    {
      st.(next := next, cursor := Some(Cursor(next - 1, chain[..next])), chunk := Doubled(st.chunk))
    }

    /** Nothing was added but records of blocks `[lo, hi)`. */
    predicate AddedWithin(before: seq<Record>, lo: nat, hi: nat)
      reads this
    {
      forall r :: r in events ==> r in before || lo <= r.block < hi
    }

    /** One past the last block that may be scanned. */
    function ScanEnd(): nat
      reads this
    {
      if |chain| <= cfg.safeLag then 1 else |chain| - cfg.safeLag
    }

    /** The next range was reviewed and committed: as much as a chunk holds, and never past the safe head. */
    predicate Advanced(st: ScanState, before: seq<Record>, st': ScanState)
      reads this
    {
      && st.next < ScanEnd() && st'.next == (if st.next + st.chunk <= ScanEnd() then st.next + st.chunk else ScanEnd())
      && st'.start == st.start && st.next < st'.next <= |chain|
      && st'.cursor == Some(Cursor(st'.next - 1, chain[..st'.next]))
      && st'.chunk == (if 2 * st.chunk <= cfg.chunkBlocks then 2 * st.chunk else cfg.chunkBlocks)
      && events == Review(before, chain, Logs(chain, st.next, st'.next))
    }

    /** What one pass can return: the next range, a smaller chunk after a failed read, or nothing new, and that exactly
        when everything that may be scanned has been. */
    predicate Passed(st: ScanState, before: seq<Record>, st': ScanState)
      reads this
    {
      && (st' == st <==> ScanEnd() <= st.next)
      && (st' == st ==> events == before)
      && (|| st' == st || Advanced(st, before, st')
          || (events == before && 100 < st.chunk
              && st' == st.(chunk := if st.chunk < 200 then 100 else st.chunk / 2)))
    }

    /** One pass of `scanChunk`. A pass that dies or throws part of the way adds only canonical records, and no pass
        adds a record past the safe head. */
    method ScanChunk(ghost good: bool, st: ScanState) returns (out: Outcome)
      requires Live(good, st)
      modifies this`events
      ensures Live(good, st) && AddedWithin(old(events), st.next, ScanEnd())
      ensures out.Returned? ==> Live(good, out.st) && Passed(st, old(events), out.st)
      ensures ScanEnd() <= st.next ==> out == Returned(st)
    {
      var safeHead := SafeHead(cfg, chain);
      var fromBlock := st.next;
      if fromBlock > safeHead {
        return Returned(st);
      }
      var maximumToBlock := fromBlock + st.chunk - 1;
      var toBlock := if maximumToBlock < safeHead then maximumToBlock else safeHead;
      out := ScanTo(good, st, toBlock);
    }

    /** Read and review the range, or make the chunk smaller when the read fails. */
    method ScanTo(ghost good: bool, st: ScanState, toBlock: nat) returns (out: Outcome)
      requires Live(good, st) && st.next <= toBlock < |chain| && st.next < ScanEnd()
      requires toBlock + 1 == (if st.next + st.chunk <= ScanEnd() then st.next + st.chunk else ScanEnd())
      modifies this`events
      ensures Live(good, st) && AddedWithin(old(events), st.next, toBlock + 1)
      ensures out.Returned? ==> Live(good, out.st) && Passed(st, old(events), out.st)
    {
      var read: bool := *;
      if read {
        out := ReviewAndCommit(good, st, toBlock);
        if out.Returned? {
          CommitPasses(st, old(events), toBlock + 1);
        }
      } else {
        out := Reduce(good, st);
      }
    }

    lemma CommitPasses(st: ScanState, before: seq<Record>, to: nat)
      requires chain != [] && cfg.Valid() && MIN_CHUNK <= st.chunk && st.next < ScanEnd()
      requires to == (if st.next + st.chunk <= ScanEnd() then st.next + st.chunk else ScanEnd())
      requires to <= |chain| && events == Review(before, chain, Logs(chain, st.next, to))
      ensures Passed(st, before, Committed(st, to))
    {
    }

    lemma LiveAtChunk(good: bool, st: ScanState, chunk: nat)
      requires Live(good, st) && MIN_CHUNK <= chunk <= cfg.chunkBlocks
      ensures Live(good, st.(chunk := chunk))
    {
    }

    /** After a failed read the chunk is halved, but never below the minimum. */
    method Reduce(ghost good: bool, st: ScanState) returns (out: Outcome)
      requires Live(good, st)
      ensures out == if st.chunk <= MIN_CHUNK then Threw else Returned(st.(chunk := Halved(st.chunk)))
      ensures out.Returned? ==> Live(good, out.st)
    {
      if st.chunk <= MIN_CHUNK {
        return Threw;
      }
      LiveAtChunk(good, st, Halved(st.chunk));
      out := Returned(st.(chunk := Halved(st.chunk)));
    }

    method ReviewAndCommit(ghost good: bool, st: ScanState, toBlock: nat) returns (out: Outcome)
      requires Live(good, st) && st.next <= toBlock < |chain|
      modifies this`events
      ensures Live(good, st) && AddedWithin(old(events), st.next, toBlock + 1)
      ensures out.Returned? ==>
                && out.st == Committed(st, toBlock + 1) && Live(good, out.st)
                && events == Review(old(events), chain, Logs(chain, st.next, toBlock + 1))
    {
      var done := ReviewLogs(good, st, toBlock + 1);
      var committed: bool := *;
      if !done || !committed {
        var alive: bool := *;
        return if alive then Threw else Crashed;
      }
      CommitIsLive(good, st, old(events), toBlock + 1);
      var doubled := if st.chunk * 2 > MIN_CHUNK then st.chunk * 2 else MIN_CHUNK;
      var capped := if cfg.chunkBlocks < doubled then cfg.chunkBlocks else doubled;
      assert capped == Doubled(st.chunk);
      out := Returned(st.(next := toBlock + 1, cursor := Some(Cursor(toBlock, chain[..toBlock + 1])), chunk := capped));
    }

    /** Review transactions one by one; the process may die, or a receipt fail, before any of them. */
    method ReviewFound(found: seq<Found>) returns (reviewed: nat)
      modifies this`events
      ensures reviewed <= |found| && events == Review(old(events), chain, found[..reviewed])
    {
      var known := set e <- events :: e.evidenceId;
      reviewed := 0;
      while reviewed < |found|
        invariant reviewed <= |found| && events == Review(old(events), chain, found[..reviewed])
        invariant known == set e <- events :: e.evidenceId
      {
        var goesOn: bool := *;
        if !goesOn {
          return;
        }
        assert found[..reviewed + 1][..reviewed] == found[..reviewed];
        var record := ReviewedRecord(chain, found[reviewed]);
        if record.Some? && record.value.evidenceId !in known {
          events := events + [record.value];
          known := known + {record.value.evidenceId};
        }
        reviewed := reviewed + 1;
      }
    }

    method ReviewLogs(ghost good: bool, st: ScanState, to: nat) returns (done: bool)
      requires Live(good, st) && st.next <= to <= |chain|
      modifies this`events
      ensures Live(good, st)
      ensures done ==> events == Review(old(events), chain, Logs(chain, st.next, to))
      ensures AddedWithin(old(events), st.next, to)
    {
      var found := Logs(chain, st.next, to);
      var reviewed := ReviewFound(found);
      forall r | r in events ensures r in old(events) || st.next <= r.block < to {
        ReviewAddsWithin(old(events), chain, st.next, to, reviewed, r);
      }
      PartialReviewIsLive(good, st, old(events), to, reviewed);
      assert found[..|found|] == found;
      done := reviewed == |found|;
    }

    /** Records of an unfinished chunk lie past the cursor and are canonical. */
    lemma PartialReviewIsLive(good: bool, st: ScanState, before: seq<Record>, to: nat, k: nat)
      requires cfg.Valid() && ChainOk(chain) && DistinctIds(before) && Shape(cfg, st)
      requires st.next <= to <= |chain| && (good ==> Covering(chain, before, st))
      requires forall e :: e in before ==> st.start <= e.block
      requires st.cursor.Some? ==> chain[..st.next] == st.cursor.value.hash
      requires k <= |Logs(chain, st.next, to)| && events == Review(before, chain, Logs(chain, st.next, to)[..k])
      ensures Live(good, st)
    {
      var found := Logs(chain, st.next, to);
      LogsAreDistinct(chain, st.next, to);
      ReviewKeepsDistinct(before, chain, found[..k]);
      forall r: Record ensures r in events ==> r in before || (Canonical(chain, r) && st.next <= r.block)
      {
        ReviewHas(before, chain, found[..k], r);
        if FromFound(chain, found[..k], r) {
          var i :| 0 <= i < k && ReviewedRecord(chain, found[..k][i]) == Some(r);
          assert ReviewedRecord(chain, found[i]) == Some(r);
          FoundIsCanonical(chain, st.next, to, r);
        }
      }
    }

    lemma CommitIsLive(good: bool, st: ScanState, before: seq<Record>, to: nat)
      requires DistinctIds(before) && (good ==> Covering(chain, before, st))
      requires forall e :: e in before ==> st.start <= e.block
      requires Live(good, st) && st.next < to <= |chain| && events == Review(before, chain, Logs(chain, st.next, to))
      ensures Live(good, Committed(st, to))
    {
      if good {
        assert NothingStale(chain, before, st.next, to);
        ReviewCoversExactlyWhen(chain, before, st.start, st.next, to);
      }
    }

    // ---- starting up ----

    /** A first start: nothing is skipped that is recent enough and may be scanned, and nothing older is scanned. */
    method InitialState(cutoff: nat) returns (out: Outcome)
      requires Files(true) && file.None? && Ordered(chain)
      ensures out.Threw? || (out.Returned? && Live(true, out.st))
      ensures out.Returned? ==>
                && out.st == ScanState(out.st.start, out.st.start, None, cfg.chunkBlocks) && out.st.start < ScanEnd()
                && forall i :: 0 <= i < ScanEnd() - 1 ==> (out.st.start <= i <==> cutoff <= chain[i].time)
    {
      var safeHead := SafeHead(cfg, chain);
      var reached: bool := *;
      if !reached {
        return Threw;
      }
      var start := FindRetentionStart(chain, safeHead, cutoff);
      out := Returned(ScanState(start, start, None, cfg.chunkBlocks));
    }

    /** What the startup check does with a state: keeps it when there is no cursor or its block is still there,
        throws when the chain is shorter, and otherwise drops the last 20 blocks before the cursor, but never what is
        before the start. */
    ghost predicate Resumed(st: ScanState, before: seq<Record>, out: Outcome)
      reads this
      requires Shape(cfg, st)
    {
      if st.cursor.None? || CursorMatches(chain, st) then out == Returned(st) && events == before
      else if |chain| < st.next then out == Threw && events == before
      else
        var block := st.cursor.value.block;
        && out == Returned(st.(next := if st.start + 20 < block then block - 20 else st.start, cursor := None))
        && forall e :: e in events <==> e in before && e.block < out.st.next
    }

    /** `verifyCursor`: accept the cursor, or drop everything from the rewind point on. The evidence file is
        rewritten before the state file, and the process may die between the two. The result covers its range
        exactly when the files were `Startable`. */
    method VerifyCursor(ghost good: bool, st: ScanState) returns (out: Outcome)
      requires Files(good) && file == Some(st)
      modifies this`events
      ensures Files(good)
      ensures out.Returned? ==>
              Tidy(out.st) && (good ==> (Covering(chain, events, out.st) <==> old(Startable(events, file, chain))))
      ensures Resumed(st, old(events), out)
    {
      if good && Accepted(chain, st) {
        AcceptedCoversExactlyWhen(cfg, events, st, chain);
      }
      if st.cursor.None? {
        return Returned(st);
      }
      var cursor := st.cursor.value;
      if cursor.block >= |chain| {
        return Threw;
      }
      if chain[..cursor.block + 1] == cursor.hash {
        return Returned(st);
      }
      var nextBlock := Rewind(st);
      RewoundIsOk(good, st, events);
      events := Retain(events, nextBlock);
      out := Returned(st.(next := nextBlock, cursor := None));
    }

    lemma RewoundIsOk(good: bool, st: ScanState, before: seq<Record>)
      requires DiskSane(cfg, before, Some(st), chain) && (good ==> DiskCovers(before, Some(st), chain))
               && st.cursor.Some?
      ensures var nextBlock := Rewind(st); var retained := Retain(before, nextBlock);
              && DiskSane(cfg, retained, Some(st), chain) && (good ==> DiskCovers(retained, Some(st), chain))
              && DistinctIds(retained) && nextBlock <= |chain|
              && (good ==> Covered(chain, retained, st.start, nextBlock))
    {
      var nextBlock := Rewind(st);
      var retained, hash := Retain(before, nextBlock), st.cursor.value.hash;
      RetainKeepsDistinct(before, nextBlock);
      if good {
        assert Covered(hash, retained, st.start, nextBlock);
        assert TornOff(st, retained);
        CoveredByPrefix(hash, chain, retained, st.start, nextBlock);
      }
    }

    method WriteState(ghost good: bool, st: ScanState)
      requires Live(good, st)
      modifies this`file
      ensures Live(good, st) && Files(good) && file == Some(st)
    {
      LiveIsFiled(good, st);
      file := Some(st);
    }

    method Startup(ghost good: bool, cutoff: nat) returns (out: Outcome)
      requires Files(good) && Ordered(chain)
      modifies this`events, this`file
      ensures Files(good && old(Startable(events, file, chain)))
      ensures out.Returned? ==> Live(good && old(Startable(events, file, chain)), out.st) && file == Some(out.st)
      ensures out.Returned? && old(file).Some? ==> Resumed(old(file.value), old(events), out)
    {
      if file.None? {
        out := InitialState(cutoff);
      } else {
        out := VerifyCursor(good, file.value);
      }
      var alive: bool := *;
      if !alive {
        return Crashed;
      }
      if out.Returned? {
        WriteState(good && old(Startable(events, file, chain)), out.st);
      }
    }

    // ---- whole runs ----

    /** One process, from its startup check until it stops or dies. After any number of passes no evidence occurs
        twice and the chunk is within its bounds (`Tidy`), and, started on good files that are `Startable`, the
        files cover exactly the range up to the next block. */
    method Process(ghost good: bool, cutoff: nat, rounds: nat) returns (running: Option<ScanState>)
      requires Files(good) && Ordered(chain)
      modifies this
      ensures Files(good && old(Startable(events, file, chain)))
      ensures running.Some? ==> Live(good && old(Startable(events, file, chain)), running.value) && file == running
    {
      ghost var kept := good && Startable(events, file, chain);
      var out := Startup(good, cutoff);
      if !out.Returned? {
        return None;
      }
      var st := out.st;
      for round := 0 to rounds
        invariant Files(kept) && Live(kept, st) && file == Some(st)
      {
        out := ScanChunk(kept, st);
        LiveIsFiled(kept, st);
        var alive: bool := *;
        if out.Crashed? || !alive {
          return None;
        }
        if out.Returned? {
          st := out.st;
        }
        WriteState(kept, st);
        Grow(kept, st);
        LiveIsFiled(kept, st);
      }
      running := Some(st);
    }

    /** Any number of processes, with the chain reorganised behind the rewind horizon between them. `kept` says
        whether every one of them was started on `Startable` files; if so, coverage is exact. */
    method Lifetime(processes: nat, rounds: nat) returns (running: Option<ScanState>, kept: bool)
      requires Files(true)
      modifies this
      ensures Files(kept)
      ensures running.Some? ==> Live(kept, running.value) && file == running
    {
      running, kept := None, true;
      for process := 0 to processes
        invariant Files(kept)
        invariant running.Some? ==> Live(kept, running.value) && file == running
      {
        var chain': Chain, cutoff: int := *, *;
        if MayBecome(chain, chain', file) && Ordered(chain') && cutoff >= 0 {
          ReorgKeepsDisk(cfg, events, file, chain, chain');
          chain := chain';
          var startable := Startable(events, file, chain);
          running := Process(kept, cutoff, rounds);
          kept := kept && startable;
        }
      }
    }
  }

  // ---- two ways to lose coverage ----

  const EMPTY: Block := Block(0, 0, [])
  const OTHER: Block := Block(0, 1, [])

  /** Block 1 holds transaction 7, a closed cycle. */
  const WITH_CYCLE: Block := Block(0, 2, [Tx(7, true)])

  /** Block 0, block 1, and as many empty blocks as the scanner lags behind the head. */
  function Lagged(cfg: Config, block1: Block): (chain: Chain)
    ensures |chain| == cfg.safeLag + 2 && chain[0] == EMPTY && chain[1] == block1
    ensures forall i :: 2 <= i < |chain| ==> chain[i] == EMPTY
  {
    [EMPTY, block1] + seq(cfg.safeLag, i => EMPTY)
  }

  function AtBlock0(cfg: Config): ScanState { ScanState(0, 1, Some(Cursor(0, [EMPTY])), cfg.chunkBlocks) }

  const STALE := Record(7, 1, [EMPTY, WITH_CYCLE])

  lemma LaggedIsOk(cfg: Config, block1: Block)
    requires cfg.Valid() && block1 in {OTHER, WITH_CYCLE}
    ensures var chain := Lagged(cfg, block1);
            && ChainOk(chain) && SafeHead(cfg, chain) == 1
            && chain[..0] == [] && chain[..1] == [EMPTY] && chain[..2] == [EMPTY, block1]
  {
  }

  lemma BlockOneLogs(chain: Chain)
    requires |chain| > 1 && chain[1] == WITH_CYCLE
    ensures Logs(chain, 1, 2) == [Found(1, Tx(7, true))]
  {
    assert Logs(chain, 1, 1) == [];
    assert InBlock(1, chain[1].txs) == [Found(1, Tx(7, true))];
  }

  lemma OneReviewed(chain: Chain, found: Found)
    requires found.block < |chain| && ReviewedRecord(chain, found).Some?
    ensures Review([], chain, [found]) == [ReviewedRecord(chain, found).value]
  {
    assert [found][..0] == [];
    assert [] + [ReviewedRecord(chain, found).value] == [ReviewedRecord(chain, found).value];
  }

  lemma StaleTailIsOnDisk(cfg: Config)
    requires cfg.Valid()
    ensures var before, after := Lagged(cfg, WITH_CYCLE), Lagged(cfg, OTHER);
            && DiskOk(cfg, [STALE], Some(AtBlock0(cfg)), before)
            && MayBecome(before, after, Some(AtBlock0(cfg))) && CursorMatches(after, AtBlock0(cfg))
  {
    LaggedIsOk(cfg, WITH_CYCLE);
    LaggedIsOk(cfg, OTHER);
    assert Covered([EMPTY], [STALE], 0, 1);
  }

  /** Block 0 is committed and block 1 is within the safe head; the process dies after appending block 1's record and
      before committing block 1. A reorganisation then replaces block 1 by one without the transaction. The cursor at
      block 0 is intact, so the startup check drops nothing, and the next pass, which commits block 1, leaves a
      record the chain does not have. */
  lemma StaleTailSpoilsCoverage(cfg: Config)
    requires cfg.Valid()
    ensures var before, after := Lagged(cfg, WITH_CYCLE), Lagged(cfg, OTHER);
            && SafeHead(cfg, before) == SafeHead(cfg, after) == 1
            && Review([], before, Logs(before, 1, 2)) == [STALE]
            && DiskOk(cfg, [STALE], Some(AtBlock0(cfg)), before)
            && MayBecome(before, after, Some(AtBlock0(cfg))) && CursorMatches(after, AtBlock0(cfg))
            && Covered(after, [STALE], 0, 1) && !Covered(after, Review([STALE], after, Logs(after, 1, 2)), 0, 2)
  {
    var after, events := Lagged(cfg, OTHER), [STALE];
    LaggedIsOk(cfg, WITH_CYCLE);
    LaggedIsOk(cfg, OTHER);
    BlockOneLogs(Lagged(cfg, WITH_CYCLE));
    OneReviewed(Lagged(cfg, WITH_CYCLE), Found(1, Tx(7, true)));
    StaleTailIsOnDisk(cfg);
    assert STALE in events && !Canonical(after, STALE);
    assert !NothingStale(after, events, 1, 2);
    ReviewCoversExactlyWhen(after, events, 0, 1, 2);
  }

  /** A rewind drops block 0's record and dies before the state file follows; the chain then comes back to the one
      the cursor was written for. The startup check accepts the cursor, and the record is gone for good. */
  lemma TornRewindLosesCoverage(cfg: Config)
    requires cfg.Valid()
    ensures var st := ScanState(0, 1, Some(Cursor(0, [WITH_CYCLE])), cfg.chunkBlocks);
            var chain, events := [WITH_CYCLE], [Record(7, 0, [WITH_CYCLE])];
            && DiskOk(cfg, events, Some(st), chain) && MayBecome(chain, [OTHER], Some(st))
            && !CursorMatches([OTHER], st)
            && Retain(events, Rewind(st)) == []
            && MayBecome([OTHER], chain, Some(st)) && CursorMatches(chain, st)
            && !Covered(chain, [], 0, 1)
  {
    var chain := [WITH_CYCLE];
    assert chain[..1] == chain && chain[..0] == [];
    var r := Record(7, 0, chain);
    assert Holds(chain[0], 7) by {
      assert chain[0].txs[0] == Tx(7, true);
    }
    assert Canonical(chain, r);
    forall q: Record | q.block < 1 ensures q in [r] <==> Canonical(chain, q) {
    }
  }
}
