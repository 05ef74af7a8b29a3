// scripts/earnonhood-live.mjs and scripts/earnonhood-research.mjs, `mapWithConcurrency`: workers that share one
// cursor. Which task finishes next is arbitrary at every turn, so what is proved holds for every interleaving.
module WorkerPool {
  import opened Evm

  /** What the returned promise becomes. `None` marks a slot no worker ever filled. */
  datatype Outcome<U> = Fulfilled(output: seq<Option<U>>) | Rejected(index: nat)

  /** `starts` lists the indices in the order their tasks were started: 0, 1, 2 and so on, each once. */
  ghost predicate InOrder(starts: seq<nat>, claimed: nat) {
    |starts| == claimed && forall k :: 0 <= k < |starts| ==> starts[k] == k
  }

  function AtMost(a: int, b: int): int { if a < b then a else b }

  /** What the workers share. */
  class Pool<T, U(==)> {
    const items: seq<T>
    const task: (T, nat) -> Option<U>

    var output: array<Option<U>>
    var cursor: nat

    // Indices whose tasks are running.
    var inFlight: set<nat>

    // Every index whose task was started, in order.
    ghost var starts: seq<nat>

    // The most tasks that were ever running at once.
    ghost var peak: nat

    // Indices whose tasks failed; each took its worker with it.
    ghost var failures: set<nat>

    constructor (items: seq<T>, task: (T, nat) -> Option<U>)
      ensures this.items == items && this.task == task && fresh(output)
      ensures Progress() && cursor == 0 && inFlight == {} && peak == 0 && failures == {}
    {
      this.items, this.task, cursor, inFlight, starts, peak, failures := items, task, 0, {}, [], 0, {};
      output := new Option<U>[|items|](_ => None);
    }

    /** Indices below the cursor are claimed once each; those not in flight have failed or have their result in
        place, and nothing else is touched. */
    ghost predicate Progress()
      reads this, output
    {
      && output.Length == |items|
      && (forall i :: i in inFlight ==> i < cursor && i < |items|)
      && (forall i :: 0 <= i < |items| && i < cursor && i !in inFlight ==> output[i] == task(items[i], i))
      && (forall i :: i in failures <==> 0 <= i < |items| && i < cursor && i !in inFlight && task(items[i], i) == None)
      && (forall i :: 0 <= i < |items| && (cursor <= i || i in inFlight) ==> output[i] == None)
      && InOrder(starts, AtMost(cursor, |items|))
      && |inFlight| <= peak
    }

    /** `index = cursor++`: start the next task, or retire. */
    method Claim()
      requires Progress()
      modifies this`cursor, this`inFlight, this`starts, this`peak
      ensures Progress() && cursor == old(cursor) + 1
      ensures inFlight == old(inFlight) + if old(cursor) < |items| then {old(cursor)} else {}
      ensures |inFlight| == |old(inFlight)| + if old(cursor) < |items| then 1 else 0
      ensures peak == if old(peak) < |inFlight| then |inFlight| else old(peak)
    {
      if cursor < |items| {
        StartNext();
      } else {
        cursor := cursor + 1;
      }
    }

    method StartNext()
      requires Progress() && cursor < |items|
      modifies this`cursor, this`inFlight, this`starts, this`peak
      ensures Progress() && cursor == old(cursor) + 1
      ensures inFlight == old(inFlight) + {old(cursor)} && |inFlight| == |old(inFlight)| + 1
      ensures peak == if old(peak) < |inFlight| then |inFlight| else old(peak)
    {
      inFlight := inFlight + {cursor};
      starts := starts + [cursor];
      peak := if peak < |inFlight| then |inFlight| else peak;
      cursor := cursor + 1;
    }

    /** A running task ends: its result goes to its own slot, or it fails and its worker ends with it. */
    method Finish(index: nat) returns (ok: bool)
      requires Progress() && index in inFlight
      modifies this`inFlight, this`failures, output
      ensures Progress() && inFlight == old(inFlight) - {index}
      ensures ok <==> task(items[index], index).Some?
      ensures failures == old(failures) + if ok then {} else {index}
    {
      var result := task(items[index], index);
      inFlight := inFlight - {index};
      if result == None {
        failures := failures + {index};
        return false;
      }
      output[index] := result;
      ok := true;
    }

    /** Every worker claims once before any task can end. */
    method StartWorkers(workers: int)
      requires Progress() && cursor == 0 && inFlight == {} && peak == 0 && workers <= |items|
      modifies this`cursor, this`inFlight, this`starts, this`peak
      ensures Progress() && |inFlight| == peak == cursor == if workers < 0 then 0 else workers
    {
      while cursor < workers
        invariant Progress() && |inFlight| == peak == cursor && (cursor == 0 || cursor <= workers)
        decreases workers - cursor
      {
        Claim();
      }
    }

    /** Running tasks end in any order, and whoever ends without failing claims again, also after another worker has
        failed. No more are ever in flight than at the start; all is claimed unless every worker failed. */
    method Drain() returns (first: Option<nat>)
      requires Progress() && (inFlight == {} ==> cursor == 0) && |inFlight| <= peak && failures == {}
      modifies this`cursor, this`inFlight, this`starts, this`peak, this`failures, output
      ensures Progress() && peak == old(peak) && inFlight == {}
      ensures if old(inFlight) == {} then cursor == 0 else |failures| < |old(inFlight)| ==> |items| <= cursor
      ensures first.None? <==> failures == {}
      ensures first.Some? ==> first.value in failures
    {
      first := None;
      while inFlight != {}
        invariant Progress() && peak == old(peak) && |inFlight| + |failures| <= |old(inFlight)|
        invariant if old(inFlight) == {} then cursor == 0
                  else cursor < |items| ==> |inFlight| + |failures| == |old(inFlight)|
        invariant first.None? <==> failures == {}
        invariant first.Some? ==> first.value in failures
        decreases if cursor < |items| then |items| - cursor else 0, |inFlight|
      {
        var index, ok := EndOne();
        if !ok && first.None? {
          first := Some(index);
        }
      }
    }

    /** Any one of the running tasks ends; unless it failed, its worker claims again. */
    method EndOne() returns (index: nat, ok: bool)
      requires Progress() && inFlight != {}
      modifies this`cursor, this`inFlight, this`starts, this`peak, this`failures, output
      ensures Progress() && peak == old(peak)
      ensures |failures| == |old(failures)| + if ok then 0 else 1
      ensures failures == old(failures) + if ok then {} else {index}
      ensures cursor == old(cursor) + if ok then 1 else 0
      ensures |inFlight| == |old(inFlight)| - if ok && old(cursor) < |items| then 0 else 1
    {
      index :| index in inFlight;
      ok := Finish(index);
      if ok {
        Claim();
      }
    }
  }

  /** With a worker at all, the promise is fulfilled exactly when every task succeeds, and then slot `i` holds the
      result for item `i`; a rejection names a task that failed. By the time every worker has ended, also after a
      rejection, tasks were started once each and in order, never more than `concurrency` at once, and all of
      them unless as many failed as there were workers. Without a worker nothing is ever started. */
  method MapWithConcurrency<T, U(==)>(items: seq<T>, concurrency: int, task: (T, nat) -> Option<U>)
    returns (r: Outcome<U>, ghost starts: seq<nat>, ghost peak: nat, ghost failures: set<nat>)
    ensures r.Fulfilled? ==> |r.output| == |items|
    ensures concurrency > 0 ==> (r.Fulfilled? <==> forall i :: 0 <= i < |items| ==> task(items[i], i).Some?)
    ensures concurrency > 0 && r.Fulfilled? ==>
              InOrder(starts, |items|) && forall i :: 0 <= i < |items| ==> r.output[i] == task(items[i], i)
    ensures concurrency <= 0 ==> r.Fulfilled? && starts == [] && forall i :: 0 <= i < |items| ==> r.output[i] == None
    ensures r.Rejected? ==> r.index in starts && r.index < |items| && task(items[r.index], r.index) == None
    ensures InOrder(starts, |starts|) && |starts| <= |items|
    ensures peak <= (if concurrency < 0 then 0 else concurrency)
    ensures forall i :: i in failures <==> 0 <= i < |starts| && task(items[i], i) == None
    ensures |failures| < AtMost(concurrency, |items|) ==> |starts| == |items|
  {
    var pool := new Pool(items, task);
    var workers := AtMost(concurrency, |items|);
    pool.StartWorkers(workers);
    var first := pool.Drain();
    starts, peak, failures := pool.starts, pool.peak, pool.failures;
    if first.Some? {
      assert starts[first.value] == first.value;
      return Rejected(first.value), starts, peak, failures;
    }
    r := Fulfilled(pool.output[..]);
  }
}
