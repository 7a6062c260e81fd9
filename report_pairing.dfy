/**
 * The pairing step of the inspection report driver, applied to what the
 * threaded dispatcher yields: `zip(entry_ids, reports)` pairs by position,
 * so a fetch that yields nothing and the completion order both decide which
 * report ends up next to which id.
 */
module ReportPairing {
  import opened PyValues
  import opened Sequences
  import Synchronous
  import Threaded

  /**
   * Zipping the ids handed to the threaded dispatcher with what it yields
   * pairs by position: there is one pair per id whose fetch yields a report,
   * never more than there are ids, whatever the completion order.
   */
  lemma PairsPerYieldingId(h: Synchronous.Handler, ids: seq<string>, order: seq<nat>, net: Synchronous.Transport)
    requires Threaded.IsCompletionOrder(order, |ids|)
    ensures var outs := Threaded.Outputs(h, ids, net);
      |Zip(ids, Threaded.Gather(outs, order))| == Threaded.NonEmpty(outs) <= |ids|
  {
    var outs := Threaded.Outputs(h, ids, net);
    Threaded.DispatchOutcome(outs, order);
  }

  /**
   * A fetch that yields nothing shifts the pairing: when the first id's fetch
   * yields nothing (its error absorbed, or raised and logged by the
   * dispatcher) and the second's yields a report, that report is paired with
   * the first id, in either completion order.
   */
  lemma MispairedReport(h: Synchronous.Handler, a: string, b: string, x: Json, net: Synchronous.Transport, order: seq<nat>)
    requires h.Fetch(a, net).items == []
    requires h.Fetch(b, net).items == [x]
    requires Threaded.IsCompletionOrder(order, 2)
    ensures Zip([a, b], Threaded.Gather(Threaded.Outputs(h, [a, b], net), order)) == [(a, x)]
  {
    var outs := Threaded.Outputs(h, [a, b], net);
    OutputsPair(h, a, b, net);
    TwoTaskOrders(order);
    GatherPair(outs, order[0], order[1]);
    assert Threaded.Gather(outs, order) == [x];
  }

  /**
   * When both fetches yield, the report paired with each id is the one that
   * completed in its position: completing in reverse order swaps them.
   */
  lemma PairingFollowsCompletion(h: Synchronous.Handler, a: string, b: string, x: Json, y: Json, net: Synchronous.Transport)
    requires h.Fetch(a, net).items == [x] && h.Fetch(b, net).items == [y]
    ensures Zip([a, b], Threaded.Gather(Threaded.Outputs(h, [a, b], net), [0, 1])) == [(a, x), (b, y)]
    ensures Zip([a, b], Threaded.Gather(Threaded.Outputs(h, [a, b], net), [1, 0])) == [(a, y), (b, x)]
  {
    var outs := Threaded.Outputs(h, [a, b], net);
    OutputsPair(h, a, b, net);
    GatherPair(outs, 0, 1);
    GatherPair(outs, 1, 0);
    ZipPair(a, b, x, y);
    ZipPair(a, b, y, x);
  }

  lemma ZipPair<A, B>(a: A, b: A, x: B, y: B)
    ensures Zip([a, b], [x, y]) == [(a, x), (b, y)]
  {
  }

  lemma OutputsPair(h: Synchronous.Handler, a: string, b: string, net: Synchronous.Transport)
    ensures Threaded.Outputs(h, [a, b], net) == [h.Fetch(a, net).items, h.Fetch(b, net).items]
  {
  }

  lemma GatherPair<T>(outs: seq<seq<T>>, i: nat, j: nat)
    requires i < |outs| && j < |outs|
    ensures Threaded.IndexesInto([i, j], |outs|)
    ensures Threaded.Gather(outs, [i, j]) == outs[i] + outs[j]
  {
    assert [i, j][..1] == [i] && [i][..0] == [];
    assert Threaded.Gather(outs, [i]) == outs[i];
  }

  /** A completion order of two tasks is one of the two orderings. */
  lemma TwoTaskOrders(order: seq<nat>)
    requires Threaded.IsCompletionOrder(order, 2)
    ensures order == [0, 1] || order == [1, 0]
  {
    assert Threaded.Indices(2) == [0, 1];
    assert |multiset(order)| == |order| == 2;
    assert order == [order[0], order[1]];
    assert multiset{order[0], order[1]} == multiset{0, 1};
  }
}
