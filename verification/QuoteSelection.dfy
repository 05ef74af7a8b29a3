// scripts/earnonhood-live.mjs: exact quotes for many inputs at once, their ranking, and the best quote per route.
module QuoteSelection {
  import opened Evm
  import opened WorkerPool

  /** Route ids stand for strings in collation order. */
  datatype Input = Input(route: nat, amountIn: nat)

  datatype Quote = Quote(route: nat, amountIn: nat, amountOut: nat, failed: bool) {
    function Gross(): int { amountOut - amountIn }
  }

  /** The quoter reverts or answers; a revert is caught and kept as a failed quote. */
  function QuoteFor(exactQuote: Input -> Option<nat>, input: Input): Quote {
    match exactQuote(input)
    case Some(out) => Quote(input.route, input.amountIn, out, false)
    case None => Quote(input.route, input.amountIn, 0, true)
  }

  /** Every input gets its own quote, in order, however the four workers interleave and however many quotes fail. */
  method ExactQuotesAtBlock(inputs: seq<Input>, exactQuote: Input -> Option<nat>) returns (quotes: seq<Quote>)
    ensures |quotes| == |inputs|
    ensures forall i :: 0 <= i < |inputs| ==>
              && quotes[i].route == inputs[i].route && quotes[i].amountIn == inputs[i].amountIn
              && (quotes[i].failed <==> exactQuote(inputs[i]).None?)
              && (!quotes[i].failed ==> quotes[i].amountOut == exactQuote(inputs[i]).value)
  {
    var task := (input: Input, index: nat) => Some(QuoteFor(exactQuote, input));
    var r, starts, peak, failures := MapWithConcurrency(inputs, 4, task);
    quotes := seq(|inputs|, i requires 0 <= i < |inputs| => r.output[i].value);
  }

  /** The comparator is negative: larger gross first, then smaller route id, then smaller amount. */
  predicate Precedes(a: Quote, b: Quote) {
    || b.Gross() < a.Gross()
    || (a.Gross() == b.Gross() && (a.route < b.route || (a.route == b.route && a.amountIn < b.amountIn)))
  }

  /** `a` may stand before `b`: it earns more, or as much on a smaller route id, or as much on the same route with no
      larger input. */
  predicate Before(a: Quote, b: Quote) {
    var earnsA, earnsB := a.amountOut - a.amountIn, b.amountOut - b.amountIn;
    earnsB <= earnsA && (earnsA == earnsB ==> a.route <= b.route && (a.route == b.route ==> a.amountIn <= b.amountIn))
  }

  /** Every quote may stand before every later one. */
  predicate Ranked(quotes: seq<Quote>) {
    forall i, j :: 0 <= i < j < |quotes| ==> Before(quotes[i], quotes[j])
  }

  /** A stable sort by the comparator: a quote goes behind everything it does not precede. */
  function Insert(q: Quote, ranked: seq<Quote>): seq<Quote> {
    if ranked == [] || !Precedes(q, ranked[|ranked| - 1]) then ranked + [q]
    else Insert(q, ranked[..|ranked| - 1]) + [ranked[|ranked| - 1]]
  }

  function SortEarnQuotes(quotes: seq<Quote>): seq<Quote> {
    if quotes == [] then [] else Insert(quotes[|quotes| - 1], SortEarnQuotes(quotes[..|quotes| - 1]))
  }

  lemma {:induction false} InsertKeeps(q: Quote, ranked: seq<Quote>)
    ensures multiset(Insert(q, ranked)) == multiset(ranked) + multiset{q}
  {
    if ranked != [] {
      var n := |ranked| - 1;
      assert ranked == ranked[..n] + [ranked[n]];
      if Precedes(q, ranked[n]) {
        InsertKeeps(q, ranked[..n]);
      }
    }
  }

  lemma {:induction false} InsertHas(q: Quote, ranked: seq<Quote>, e: Quote)
    ensures e in Insert(q, ranked) <==> e == q || e in ranked
  {
    if ranked != [] {
      var n := |ranked| - 1;
      assert ranked == ranked[..n] + [ranked[n]];
      if Precedes(q, ranked[n]) {
        InsertHas(q, ranked[..n], e);
      }
    }
  }

  lemma {:induction false} InsertRanks(q: Quote, ranked: seq<Quote>)
    requires Ranked(ranked)
    ensures Ranked(Insert(q, ranked))
  {
    if ranked != [] {
      var n := |ranked| - 1;
      if Precedes(q, ranked[n]) {
        InsertRanks(q, ranked[..n]);
        var front := Insert(q, ranked[..n]);
        forall i | 0 <= i < |front| ensures Before(front[i], ranked[n]) {
          InsertHas(q, ranked[..n], front[i]);
        }
      }
    }
  }

  /** Sorting keeps the quotes and ranks them. */
  lemma {:induction false} SortRanks(quotes: seq<Quote>)
    ensures multiset(SortEarnQuotes(quotes)) == multiset(quotes)
    ensures Ranked(SortEarnQuotes(quotes))
  {
    if quotes != [] {
      var n := |quotes| - 1;
      SortRanks(quotes[..n]);
      InsertKeeps(quotes[n], SortEarnQuotes(quotes[..n]));
      InsertRanks(quotes[n], SortEarnQuotes(quotes[..n]));
      assert quotes == quotes[..n] + [quotes[n]];
    }
  }

  predicate Usable(quotes: seq<Quote>, route: nat) {
    exists i :: 0 <= i < |quotes| && quotes[i].route == route && !quotes[i].failed
  }

  /** The best usable quote of its route: none earns more, and none earns as much on a smaller input. */
  predicate BestOf(quotes: seq<Quote>, q: Quote) {
    && q in quotes && !q.failed
    && forall other :: other in quotes && other.route == q.route && !other.failed ==>
         var earns, best := other.amountOut - other.amountIn, q.amountOut - q.amountIn;
         earns < best || (earns == best && q.amountIn <= other.amountIn)
  }

  /** Routes in descending order of what they earn, ties by route id. */
  predicate Descending(best: seq<Quote>) {
    forall k, l :: 0 <= k < l < |best| ==>
      best[k].route != best[l].route
      && (best[l].Gross() < best[k].Gross() || (best[l].Gross() == best[k].Gross() && best[k].route < best[l].route))
  }

  /** One quote per route that has a usable one, the best of its route, in descending order of gross profit,
      whatever order the quotes came in. */
  method BestByRoute(quotes: seq<Quote>) returns (best: seq<Quote>)
    ensures forall route :: Usable(quotes, route) <==> exists k :: 0 <= k < |best| && best[k].route == route
    ensures forall k :: 0 <= k < |best| ==> BestOf(quotes, best[k])
    ensures Descending(best)
  {
    SortRanks(quotes);
    var ranked := SortEarnQuotes(quotes);
    best := FirstByRoute(ranked);
    SameQuotes(quotes, ranked);
    forall route ensures Usable(quotes, route) <==> Usable(ranked, route) {
      SameUsable(quotes, ranked, route);
    }
  }

  lemma SameQuotes(quotes: seq<Quote>, ranked: seq<Quote>)
    requires multiset(quotes) == multiset(ranked)
    ensures forall q :: q in quotes <==> q in ranked
  {
    forall q ensures q in quotes <==> q in ranked {
      assert q in multiset(quotes) <==> q in multiset(ranked);
    }
  }

  lemma SameUsable(quotes: seq<Quote>, ranked: seq<Quote>, route: nat)
    requires forall q :: q in quotes <==> q in ranked
    ensures Usable(quotes, route) <==> Usable(ranked, route)
  {
    if Usable(quotes, route) {
      var i :| 0 <= i < |quotes| && quotes[i].route == route && !quotes[i].failed;
      assert quotes[i] in ranked;
    }
    if Usable(ranked, route) {
      var i :| 0 <= i < |ranked| && ranked[i].route == route && !ranked[i].failed;
      assert ranked[i] in quotes;
    }
  }

  /** The loop over ranked quotes: the first usable one of each route. */
  method FirstByRoute(quotes: seq<Quote>) returns (best: seq<Quote>)
    requires Ranked(quotes)
    ensures forall route :: Usable(quotes, route) <==> exists k :: 0 <= k < |best| && best[k].route == route
    ensures forall k :: 0 <= k < |best| ==> BestOf(quotes, best[k])
    ensures Descending(best)
  {
    best := [];
    var seen: set<nat> := {};
    ghost var from: seq<nat> := [];
    for i := 0 to |quotes|
      invariant seen == set q <- best :: q.route
      invariant forall j :: 0 <= j < i && !quotes[j].failed ==> quotes[j].route in seen
      invariant Picked(quotes, i, best, from)
    {
      if !quotes[i].failed && quotes[i].route !in seen {
        RoutesSnoc(best, quotes[i]);
        PickedSnoc(quotes, i, best, from, seen);
        best := best + [quotes[i]];
        from := from + [i];
        seen := seen + {quotes[i].route};
      }
    }
    AllRoutesPicked(quotes, best, from, seen);
    PickedAreBest(quotes, best, from);
  }

  /** Entry `k` is the first usable quote of its route, at position `from[k]`; positions increase. */
  ghost predicate Picked(quotes: seq<Quote>, seen: nat, best: seq<Quote>, from: seq<nat>) {
    && |from| == |best| && seen <= |quotes|
    && (forall k :: 0 <= k < |best| ==> from[k] < seen && best[k] == quotes[from[k]] && !best[k].failed)
    && (forall k, j :: 0 <= k < |best| && 0 <= j < from[k] && !quotes[j].failed ==> quotes[j].route != best[k].route)
    && (forall k, l :: 0 <= k < l < |best| ==> from[k] < from[l] && best[k].route != best[l].route)
  }

  lemma RoutesSnoc(best: seq<Quote>, q: Quote)
    ensures (set p <- best + [q] :: p.route) == (set p <- best :: p.route) + {q.route}
  {
    assert forall p :: p in best + [q] <==> p in best || p == q;
  }

  lemma PickedSnoc(quotes: seq<Quote>, i: nat, best: seq<Quote>, from: seq<nat>, seen: set<nat>)
    requires i < |quotes| && Picked(quotes, i, best, from) && !quotes[i].failed && quotes[i].route !in seen
    requires forall k :: 0 <= k < |best| ==> best[k].route in seen
    requires forall j :: 0 <= j < i && !quotes[j].failed ==> quotes[j].route in seen
    ensures Picked(quotes, i + 1, best + [quotes[i]], from + [i])
  {
  }

  lemma AllRoutesPicked(quotes: seq<Quote>, best: seq<Quote>, from: seq<nat>, seen: set<nat>)
    requires Picked(quotes, |quotes|, best, from) && seen == set q <- best :: q.route
    requires forall j :: 0 <= j < |quotes| && !quotes[j].failed ==> quotes[j].route in seen
    ensures forall route :: Usable(quotes, route) <==> exists k :: 0 <= k < |best| && best[k].route == route
  {
    forall route ensures Usable(quotes, route) <==> exists k :: 0 <= k < |best| && best[k].route == route {
      if Usable(quotes, route) {
        assert route in seen;
      }
    }
  }

  lemma PickedAreBest(quotes: seq<Quote>, best: seq<Quote>, from: seq<nat>)
    requires Ranked(quotes) && Picked(quotes, |quotes|, best, from)
    ensures forall k :: 0 <= k < |best| ==> BestOf(quotes, best[k])
    ensures Descending(best)
  {
    forall k | 0 <= k < |best| ensures BestOf(quotes, best[k]) {
      forall other | other in quotes && other.route == best[k].route && !other.failed
        ensures other == best[k] || Before(best[k], other)
      {
        var j :| 0 <= j < |quotes| && quotes[j] == other;
      }
    }
  }
}
