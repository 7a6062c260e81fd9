/**
 * The threaded dispatcher mixed into both handlers. It submits `fetch` once per
 * id to a thread pool; since fetch is a generator function, each future at once
 * holds an unstarted generator, and the request itself runs when the consuming
 * thread drains it inside `yield from`. So the dispatcher fetches the ids one
 * after another, in the order as_completed hands out the futures, which the
 * model takes as a parameter: a permutation of the task indices.
 */
module Threaded {
  import opened PyValues
  import opened Sequences
  import opened Synchronous

  function Indices(n: nat): (r: seq<nat>)
    ensures |r| == n && forall i :: 0 <= i < n ==> r[i] == i
  {
    if n == 0 then [] else Indices(n - 1) + [n - 1]
  }

  predicate IndexesInto(order: seq<nat>, n: nat) {
    forall k :: 0 <= k < |order| ==> order[k] < n
  }

  /** as_completed hands out every one of the n submitted futures exactly once, in some order. */
  predicate IsCompletionOrder(order: seq<nat>, n: nat) {
    IndexesInto(order, n) && multiset(order) == multiset(Indices(n))
  }

  // ---- gathering task outputs -------------------------------------------------

  /** The outputs of the tasks, concatenated in the order they complete. */
  function Gather<T>(outs: seq<seq<T>>, order: seq<nat>): (r: seq<T>)
    requires IndexesInto(order, |outs|)
  {
    if order == [] then [] else Gather(outs, order[..|order| - 1]) + outs[order[|order| - 1]]
  }

  /** The outputs of the tasks, concatenated in submission order. */
  function Flatten<T>(outs: seq<seq<T>>): (r: seq<T>) {
    if outs == [] then [] else Flatten(outs[..|outs| - 1]) + outs[|outs| - 1]
  }

  /** How many tasks produce any output. */
  function NonEmpty<T>(outs: seq<seq<T>>): (r: nat) {
    if outs == [] then 0 else NonEmpty(outs[..|outs| - 1]) + (if outs[|outs| - 1] != [] then 1 else 0)
  }

  /** What each id's fetch yields, task by task. */
  function Outputs(h: Handler, ids: seq<string>, net: Transport): (r: seq<seq<Json>>)
    reads h
    ensures |r| == |ids|
    ensures forall i :: 0 <= i < |ids| ==> r[i] == h.Fetch(ids[i], net).items
  {
    if ids == [] then [] else Outputs(h, ids[..|ids| - 1], net) + [h.Fetch(ids[|ids| - 1], net).items]
  }

  // ---- the dispatcher ---------------------------------------------------------

  /**
   * execute_requests_threaded: ThreadPoolExecutor refuses a worker count
   * below one; otherwise every task's payloads are yielded as it completes,
   * and a task whose fetch raises is logged (its id is recorded in
   * `failedTasks`) and skipped. No throttle pause is taken on this path.
   */
  method ExecuteRequestsThreaded(h: Handler, ids: seq<string>, nWorkers: int, order: seq<nat>, net: Transport)
    returns (out: Generated<Json>, failedTasks: seq<string>)
    requires IsCompletionOrder(order, |ids|)
    ensures nWorkers <= 0 ==> out == Generated([], Some(ValueError)) && failedTasks == []
    ensures nWorkers > 0 ==> out.raised.None? && out.items == Gather(Outputs(h, ids, net), order)
    ensures nWorkers > 0 ==> multiset(out.items) == multiset(Flatten(Outputs(h, ids, net)))
    ensures nWorkers > 0 ==> |out.items| == NonEmpty(Outputs(h, ids, net)) <= |ids|
    ensures nWorkers > 0 ==> forall t :: t in failedTasks <==> t in ids && h.Fetch(t, net).raised.Some?
    ensures nWorkers > 0 ==> failedTasks == Picked(ids, Raised(h, ids, net), order)
  {
    if nWorkers <= 0 {
      out, failedTasks := Generated([], Some(ValueError)), [];
      return;
    }
    ghost var outs := Outputs(h, ids, net);
    ghost var raised := Raised(h, ids, net);
    var items: seq<Json> := [];
    failedTasks := [];
    var k := 0;
    while k < |order|
      invariant 0 <= k <= |order|
      invariant items == Gather(outs, order[..k])
      invariant failedTasks == Picked(ids, raised, order[..k])
    {
      var task := ids[order[k]];
      var r := h.Fetch(task, net);
      GatherStep(outs, order, k);
      PickedStep(ids, raised, order, k);
      items := items + r.items;
      if r.raised.Some? {
        failedTasks := failedTasks + [task];  // logging.error(...)
      }
      k := k + 1;
    }
    assert order[..k] == order;
    out := Generated(items, None);
    DispatchOutcome(outs, order);
    FailuresLogged(h, ids, order, net);
  }

  /** The ids of the tasks whose flag is set, in the order the tasks completed. */
  function Picked<T>(xs: seq<T>, flags: seq<bool>, order: seq<nat>): (r: seq<T>)
    requires |flags| == |xs| && IndexesInto(order, |xs|)
  {
    if order == [] then []
    else
      var i := order[|order| - 1];
      Picked(xs, flags, order[..|order| - 1]) + (if flags[i] then [xs[i]] else [])
  }

  /** Whether each id's fetch raises, task by task. */
  function Raised(h: Handler, ids: seq<string>, net: Transport): (r: seq<bool>)
    reads h
    ensures |r| == |ids|
    ensures forall i :: 0 <= i < |ids| ==> r[i] == h.Fetch(ids[i], net).raised.Some?
  {
    if ids == [] then [] else Raised(h, ids[..|ids| - 1], net) + [h.Fetch(ids[|ids| - 1], net).raised.Some?]
  }

  lemma PickedStep<T>(xs: seq<T>, flags: seq<bool>, order: seq<nat>, k: nat)
    requires |flags| == |xs| && IndexesInto(order, |xs|) && k < |order|
    ensures IndexesInto(order[..k], |xs|) && IndexesInto(order[..k + 1], |xs|)
    ensures Picked(xs, flags, order[..k + 1]) ==
      Picked(xs, flags, order[..k]) + (if flags[order[k]] then [xs[order[k]]] else [])
  {
    assert order[..k + 1][..k] == order[..k];
  }

  /** Running one more task of the completion order appends its output. */
  lemma GatherStep<T>(outs: seq<seq<T>>, order: seq<nat>, k: nat)
    requires IndexesInto(order, |outs|) && k < |order|
    ensures IndexesInto(order[..k], |outs|) && IndexesInto(order[..k + 1], |outs|)
    ensures Gather(outs, order[..k + 1]) == Gather(outs, order[..k]) + outs[order[k]]
  {
    assert order[..k + 1][..k] == order[..k];
  }

  /** fetch_all_threaded of both threaded handlers: the dispatcher with fetch as the worker. */
  method FetchAllThreaded(h: Handler, ids: seq<string>, nWorkers: int, order: seq<nat>, net: Transport)
    returns (out: Generated<Json>, failedTasks: seq<string>)
    requires IsCompletionOrder(order, |ids|)
    ensures nWorkers <= 0 ==> out == Generated([], Some(ValueError)) && failedTasks == []
    ensures nWorkers > 0 ==> out.raised.None? && out.items == Gather(Outputs(h, ids, net), order)
    ensures nWorkers > 0 ==> multiset(out.items) == multiset(Flatten(Outputs(h, ids, net)))
    ensures nWorkers > 0 ==> |out.items| == NonEmpty(Outputs(h, ids, net)) <= |ids|
    ensures nWorkers > 0 ==> forall t :: t in failedTasks <==> t in ids && h.Fetch(t, net).raised.Some?
    ensures nWorkers > 0 ==> failedTasks == Picked(ids, Raised(h, ids, net), order)
  {
    out, failedTasks := ExecuteRequestsThreaded(h, ids, nWorkers, order, net);
  }

  /** fetch_ranged_threaded: the dispatcher over exactly `ids[start:finish]`. */
  method FetchRangedThreaded(h: Handler, ids: seq<string>, start: int, finish: int, nWorkers: int, order: seq<nat>, net: Transport)
    returns (out: Generated<Json>, failedTasks: seq<string>)
    requires IsCompletionOrder(order, |PySlice(ids, start, finish)|)
    ensures var sliced := PySlice(ids, start, finish);
      && (nWorkers <= 0 ==> out == Generated([], Some(ValueError)) && failedTasks == [])
      && (nWorkers > 0 ==> out.raised.None? && out.items == Gather(Outputs(h, sliced, net), order))
      && (nWorkers > 0 ==> multiset(out.items) == multiset(Flatten(Outputs(h, sliced, net))))
      && (nWorkers > 0 ==> |out.items| == NonEmpty(Outputs(h, sliced, net)) <= |sliced|)
      && (nWorkers > 0 ==> forall t :: t in failedTasks <==> t in sliced && h.Fetch(t, net).raised.Some?)
      && (nWorkers > 0 ==> failedTasks == Picked(sliced, Raised(h, sliced, net), order))
  {
    out, failedTasks := FetchAllThreaded(h, PySlice(ids, start, finish), nWorkers, order, net);
  }

  // ---- properties -------------------------------------------------------------

  /** A completion order runs each of the n tasks: it has length n and covers every index. */
  lemma CompletionOrderCovers(order: seq<nat>, n: nat)
    requires IsCompletionOrder(order, n)
    ensures |order| == n
    ensures forall i :: 0 <= i < n ==> i in order
  {
    assert |multiset(order)| == |order|;
    assert |multiset(Indices(n))| == n;
    forall i | 0 <= i < n
      ensures i in order
    {
      assert Indices(n)[i] == i;
      assert i in multiset(Indices(n));
      assert i in multiset(order);
    }
  }

  /**
   * Logging the id of every task that raised, over a whole completion order,
   * logs exactly the ids whose fetch raises.
   */
  lemma FailuresLogged(h: Handler, ids: seq<string>, order: seq<nat>, net: Transport)
    requires IsCompletionOrder(order, |ids|)
    ensures forall t :: t in Picked(ids, Raised(h, ids, net), order) <==> t in ids && h.Fetch(t, net).raised.Some?
  {
    var raised := Raised(h, ids, net);
    PickedCovers(ids, raised, order);
    forall t | t in ids && h.Fetch(t, net).raised.Some?
      ensures exists i :: 0 <= i < |ids| && ids[i] == t && raised[i]
    {
      var i :| 0 <= i < |ids| && ids[i] == t;
      assert raised[i];
    }
  }

  /** Over a whole completion order, exactly the flagged tasks are picked. */
  lemma PickedCovers<T>(xs: seq<T>, flags: seq<bool>, order: seq<nat>)
    requires |flags| == |xs| && IsCompletionOrder(order, |xs|)
    ensures forall t :: t in Picked(xs, flags, order) <==> exists i :: 0 <= i < |xs| && xs[i] == t && flags[i]
  {
    PickedMembers(xs, flags, order);
    CompletionOrderCovers(order, |xs|);
    forall t | t in Picked(xs, flags, order)
      ensures exists i :: 0 <= i < |xs| && xs[i] == t && flags[i]
    {
      var j :| 0 <= j < |order| && xs[order[j]] == t && flags[order[j]];
      assert order[j] < |xs|;
    }
    forall t | exists i :: 0 <= i < |xs| && xs[i] == t && flags[i]
      ensures t in Picked(xs, flags, order)
    {
      var i :| 0 <= i < |xs| && xs[i] == t && flags[i];
      assert i in order;
      var j :| 0 <= j < |order| && order[j] == i;
      assert xs[order[j]] == t && flags[order[j]];
    }
  }

  /** The picked list holds exactly the flagged tasks of the order. */
  lemma {:induction false} PickedMembers<T>(xs: seq<T>, flags: seq<bool>, order: seq<nat>)
    requires |flags| == |xs| && IndexesInto(order, |xs|)
    ensures forall t :: t in Picked(xs, flags, order) ==>
      exists j :: 0 <= j < |order| && xs[order[j]] == t && flags[order[j]]
    ensures forall j :: 0 <= j < |order| && flags[order[j]] ==> xs[order[j]] in Picked(xs, flags, order)
    decreases |order|
  {
    if order != [] {
      var n := |order| - 1;
      var init := order[..n];
      assert IndexesInto(init, |xs|);
      PickedMembers(xs, flags, init);
      forall t | (exists j :: 0 <= j < |order| && xs[order[j]] == t && flags[order[j]])
        ensures t in Picked(xs, flags, order)
      {
        var j :| 0 <= j < |order| && xs[order[j]] == t && flags[order[j]];
        if j < n {
          assert init[j] == order[j];
        }
      }
      forall t | t in Picked(xs, flags, order)
        ensures exists j :: 0 <= j < |order| && xs[order[j]] == t && flags[order[j]]
      {
        if t in Picked(xs, flags, init) {
          var j :| 0 <= j < n && xs[init[j]] == t && flags[init[j]];
          assert init[j] == order[j];
        } else {
          assert xs[order[n]] == t;
        }
      }
    }
  }

  lemma {:induction false} GatherAppend<T>(outs: seq<seq<T>>, a: seq<nat>, b: seq<nat>)
    requires IndexesInto(a, |outs|) && IndexesInto(b, |outs|)
    ensures IndexesInto(a + b, |outs|)
    ensures Gather(outs, a + b) == Gather(outs, a) + Gather(outs, b)
    decreases |b|
  {
    if b == [] {
      assert a + b == a;
    } else {
      var b' := b[..|b| - 1];
      assert (a + b)[..|a + b| - 1] == a + b';
      GatherAppend(outs, a, b');
    }
  }

  /** Taking task `order[j]` out of an order takes its output out of the gathered output. */
  lemma GatherRemove<T>(outs: seq<seq<T>>, order: seq<nat>, j: nat)
    requires IndexesInto(order, |outs|) && j < |order|
    ensures IndexesInto(order[..j] + order[j + 1..], |outs|)
    ensures multiset(Gather(outs, order)) ==
      multiset(Gather(outs, order[..j] + order[j + 1..])) + multiset(outs[order[j]])
  {
    IndexesIntoParts(order, |outs|, j);
    GatherAt(outs, order, j);
    GatherAppend(outs, order[..j], order[j + 1..]);
    MultisetMiddle(Gather(outs, order[..j]), outs[order[j]], Gather(outs, order[j + 1..]));
  }

  lemma MultisetMiddle<T>(a: seq<T>, m: seq<T>, b: seq<T>)
    ensures multiset(a + m + b) == multiset(a + b) + multiset(m)
  {
    assert multiset(a + m + b) == multiset(a) + multiset(m) + multiset(b);
  }

  /** The gathered output of `left + [x] + right` has task x's output between the two parts'. */
  lemma GatherSplit<T>(outs: seq<seq<T>>, left: seq<nat>, x: nat, right: seq<nat>)
    requires IndexesInto(left, |outs|) && x < |outs| && IndexesInto(right, |outs|)
    requires IndexesInto(left + [x], |outs|) && IndexesInto(left + [x] + right, |outs|)
    ensures Gather(outs, left + [x] + right) == Gather(outs, left) + outs[x] + Gather(outs, right)
  {
    assert Gather(outs, [x]) == outs[x] by {
      assert [x][..0] == [];
    }
    GatherAppend(outs, left, [x]);
    GatherAppend(outs, left + [x], right);
  }

  /** The gathered output of an order has task `order[j]`'s output between those of the parts around it. */
  lemma GatherAt<T>(outs: seq<seq<T>>, order: seq<nat>, j: nat)
    requires IndexesInto(order, |outs|) && j < |order|
    ensures IndexesInto(order[..j], |outs|) && IndexesInto(order[j + 1..], |outs|)
    ensures Gather(outs, order) == Gather(outs, order[..j]) + outs[order[j]] + Gather(outs, order[j + 1..])
  {
    IndexesIntoParts(order, |outs|, j);
    SplitAt(order, j);
    GatherSplit(outs, order[..j], order[j], order[j + 1..]);
  }

  lemma SplitAt<U>(s: seq<U>, j: nat)
    requires j < |s|
    ensures s == s[..j] + [s[j]] + s[j + 1..]
  {
    assert s == s[..j] + [s[j]] + s[j + 1..];
  }

  lemma IndexesIntoParts(order: seq<nat>, n: nat, j: nat)
    requires IndexesInto(order, n) && j < |order|
    ensures IndexesInto(order[..j], n) && IndexesInto(order[j + 1..], n) && IndexesInto([order[j]], n)
    ensures IndexesInto(order[..j] + [order[j]], n) && IndexesInto(order[..j] + order[j + 1..], n)
  {
    var left, right := order[..j], order[j + 1..];
    forall k | 0 <= k < |left|
      ensures left[k] < n
    {
      assert left[k] == order[k];
    }
    forall k | 0 <= k < |right|
      ensures right[k] < n
    {
      assert right[k] == order[j + 1 + k];
    }
    var lr := left + right;
    forall k | 0 <= k < |lr|
      ensures lr[k] < n
    {
      if k < |left| {
        assert lr[k] == left[k];
      } else {
        assert lr[k] == right[k - |left|];
      }
    }
    var lx := left + [order[j]];
    forall k | 0 <= k < |lx|
      ensures lx[k] < n
    {
      if k < |left| {
        assert lx[k] == left[k];
      }
    }
  }

  /** Taking the same element out of two orders with equal multisets leaves equal multisets. */
  lemma MultisetRemove(o1: seq<nat>, o2: seq<nat>, j: nat)
    requires o1 != [] && j < |o2| && o2[j] == o1[|o1| - 1]
    requires multiset(o1) == multiset(o2)
    ensures multiset(o1[..|o1| - 1]) == multiset(o2[..j] + o2[j + 1..])
  {
    var x := o2[j];
    var a, b := multiset(o1[..|o1| - 1]), multiset(o2[..j] + o2[j + 1..]);
    assert o1 == o1[..|o1| - 1] + [x];
    assert o2 == o2[..j] + [x] + o2[j + 1..];
    assert multiset(o1) == a + multiset{x};
    assert multiset(o2) == b + multiset{x};
    MultisetCancel(a, b, x);
  }

  lemma MultisetCancel<T>(a: multiset<T>, b: multiset<T>, x: T)
    requires a + multiset{x} == b + multiset{x}
    ensures a == b
  {
    assert forall y :: a[y] == (a + multiset{x})[y] - multiset{x}[y];
    assert forall y :: b[y] == (b + multiset{x})[y] - multiset{x}[y];
  }

  /** The multiset of gathered outputs does not depend on the order the tasks complete in. */
  lemma {:induction false} GatherIsPermutationInvariant<T>(outs: seq<seq<T>>, o1: seq<nat>, o2: seq<nat>)
    requires IndexesInto(o1, |outs|) && IndexesInto(o2, |outs|)
    requires multiset(o1) == multiset(o2)
    ensures multiset(Gather(outs, o1)) == multiset(Gather(outs, o2))
    decreases |o1|
  {
    if o1 == [] {
      assert |multiset(o2)| == 0;
    } else {
      var x := o1[|o1| - 1];
      var init := o1[..|o1| - 1];
      assert x in multiset(o2);
      var j :| 0 <= j < |o2| && o2[j] == x;
      MultisetRemove(o1, o2, j);
      GatherRemove(outs, o2, j);
      GatherIsPermutationInvariant(outs, init, o2[..j] + o2[j + 1..]);
      assert multiset(Gather(outs, o1)) == multiset(Gather(outs, init)) + multiset(outs[x]);
    }
  }

  lemma {:induction false} GatherOnPrefix<T>(outs: seq<seq<T>>, n: nat, order: seq<nat>)
    requires n <= |outs| && IndexesInto(order, n)
    ensures Gather(outs, order) == Gather(outs[..n], order)
    decreases |order|
  {
    if order != [] {
      GatherOnPrefix(outs, n, order[..|order| - 1]);
    }
  }

  /** Completing in submission order gives the sequential concatenation. */
  lemma {:induction false} GatherInInputOrder<T>(outs: seq<seq<T>>)
    ensures Gather(outs, Indices(|outs|)) == Flatten(outs)
    decreases |outs|
  {
    if outs != [] {
      var n := |outs| - 1;
      GatherInInputOrder(outs[..n]);
      assert Indices(|outs|)[..n] == Indices(n);
      GatherOnPrefix(outs, n, Indices(n));
    }
  }

  /** When every task yields at most one payload, each task that yields contributes exactly one. */
  lemma {:induction false} FlattenCountsNonEmpty<T>(outs: seq<seq<T>>)
    requires forall i :: 0 <= i < |outs| ==> |outs[i]| <= 1
    ensures |Flatten(outs)| == NonEmpty(outs) <= |outs|
    decreases |outs|
  {
    if outs != [] {
      FlattenCountsNonEmpty(outs[..|outs| - 1]);
    }
  }

  lemma {:induction false} FlattenFromTasks<T>(outs: seq<seq<T>>, p: T)
    requires p in Flatten(outs)
    ensures exists i :: 0 <= i < |outs| && p in outs[i]
    decreases |outs|
  {
    var n := |outs| - 1;
    if p !in outs[n] {
      FlattenFromTasks(outs[..n], p);
      var i :| 0 <= i < n && p in outs[..n][i];
    }
  }

  /** Whatever the completion order, the gathered output is a permutation of the sequential one. */
  lemma DispatchOutcome<T>(outs: seq<seq<T>>, order: seq<nat>)
    requires IsCompletionOrder(order, |outs|)
    requires forall i :: 0 <= i < |outs| ==> |outs[i]| <= 1
    ensures multiset(Gather(outs, order)) == multiset(Flatten(outs))
    ensures |Gather(outs, order)| == NonEmpty(outs) <= |outs|
  {
    GatherIsPermutationInvariant(outs, order, Indices(|outs|));
    GatherInInputOrder(outs);
    FlattenCountsNonEmpty(outs);
    assert |multiset(Gather(outs, order))| == |Gather(outs, order)|;
    assert |multiset(Flatten(outs))| == |Flatten(outs)|;
  }

  /** When every task yields at most one payload, each gathered payload is the whole output of one task. */
  lemma GatherFromTasks<T>(outs: seq<seq<T>>, order: seq<nat>, p: T)
    requires IsCompletionOrder(order, |outs|)
    requires forall i :: 0 <= i < |outs| ==> |outs[i]| <= 1
    requires p in Gather(outs, order)
    ensures exists i :: 0 <= i < |outs| && outs[i] == [p]
  {
    InFlatten(outs, order, p);
    FlattenFromTasks(outs, p);
    var i :| 0 <= i < |outs| && p in outs[i];
    SingletonOf(outs[i], p);
  }

  lemma InFlatten<T>(outs: seq<seq<T>>, order: seq<nat>, p: T)
    requires IsCompletionOrder(order, |outs|)
    requires p in Gather(outs, order)
    ensures p in Flatten(outs)
  {
    GatherIsPermutationInvariant(outs, order, Indices(|outs|));
    GatherInInputOrder(outs);
    assert p in multiset(Gather(outs, order));
  }

  lemma SingletonOf<T>(s: seq<T>, p: T)
    requires |s| <= 1 && p in s
    ensures s == [p]
  {
    assert s[0] == p;
  }

  /**
   * With any two completion orders the dispatcher yields the same payloads,
   * as many as there are ids whose fetch yields, and each of them is the
   * payload of some id.
   */
  lemma ScheduleIndependence(h: Handler, ids: seq<string>, o1: seq<nat>, o2: seq<nat>, net: Transport)
    requires IsCompletionOrder(o1, |ids|) && IsCompletionOrder(o2, |ids|)
    ensures multiset(Gather(Outputs(h, ids, net), o1)) == multiset(Gather(Outputs(h, ids, net), o2))
    ensures |Gather(Outputs(h, ids, net), o1)| == NonEmpty(Outputs(h, ids, net))
    ensures forall p :: p in Gather(Outputs(h, ids, net), o1) ==>
      exists i :: 0 <= i < |ids| && h.Fetch(ids[i], net).items == [p]
  {
    var outs := Outputs(h, ids, net);
    assert forall i :: 0 <= i < |outs| ==> |outs[i]| <= 1;
    DispatchOutcome(outs, o1);
    DispatchOutcome(outs, o2);
    forall p | p in Gather(outs, o1)
      ensures exists i :: 0 <= i < |ids| && h.Fetch(ids[i], net).items == [p]
    {
      GatherFromTasks(outs, o1, p);
      var i :| 0 <= i < |outs| && outs[i] == [p];
      assert h.Fetch(ids[i], net).items == [p];
    }
  }
}
