/**
 * Python sequence idioms used throughout the core: slicing with `s[start:finish]`,
 * `zip`, and the loop shape "for x in xs: compute (possibly raising); maybe append",
 * which every filtering loop of the driver scripts follows.
 */
module Sequences {
  import opened PyValues

  /**
   * A slice bound as Python normalises it for step 1: a negative bound counts
   * from the end, and the result is clamped to [0, n].
   */
  function Clamp(i: int, n: nat): (r: nat)
    ensures r <= n
    ensures 0 <= i <= n ==> r == i
    ensures i > n ==> r == n
    ensures i < 0 ==> r == if n + i <= 0 then 0 else n + i
  {
    if i < 0 then (if i + n < 0 then 0 else i + n)
    else if i > n then n
    else i
  }

  /**
   * Whether index j of a list of length n is selected by `[start:finish]`,
   * read directly off the raw bounds without any clamping.
   */
  predicate InSliceRange(j: int, start: int, finish: int, n: nat) {
    && 0 <= j < n
    && (if start >= 0 then j >= start else j >= n + start)
    && (if finish >= 0 then j < finish else j < n + finish)
  }

  /**
   * `s[start:finish]`: the contiguous run of elements of `s` whose indices
   * the raw bounds select.
   */
  function PySlice<T>(s: seq<T>, start: int, finish: int): (r: seq<T>)
    ensures Clamp(start, |s|) + |r| <= |s|
    ensures forall k :: 0 <= k < |r| ==> r[k] == s[Clamp(start, |s|) + k]
    ensures forall j :: 0 <= j < |s| ==>
      (InSliceRange(j, start, finish, |s|) <==> Clamp(start, |s|) <= j < Clamp(start, |s|) + |r|)
  {
    var a, b := Clamp(start, |s|), Clamp(finish, |s|);
    if a < b then s[a..b] else []
  }

  /** Within bounds the slice is the plain subsequence; crossed bounds give nothing. */
  lemma SliceInBounds<T>(s: seq<T>, start: int, finish: int)
    requires 0 <= start && 0 <= finish
    ensures finish <= |s| && start <= finish ==> PySlice(s, start, finish) == s[start..finish]
    ensures start >= finish ==> PySlice(s, start, finish) == []
    ensures |PySlice(s, start, finish)| == if start >= finish || start >= |s| then 0
                                           else (if finish <= |s| then finish else |s|) - start
  {
  }

  /** `zip(a, b)`: pairs positionally and stops at the shorter input. */
  function Zip<A, B>(a: seq<A>, b: seq<B>): (r: seq<(A, B)>)
    ensures |r| == if |a| <= |b| then |a| else |b|
    ensures forall i :: 0 <= i < |r| ==> r[i] == (a[i], b[i])
  {
    if a == [] || b == [] then [] else [(a[0], b[0])] + Zip(a[1..], b[1..])
  }

  predicate Increasing(idx: seq<nat>) {
    forall p, q :: 0 <= p < q < |idx| ==> idx[p] < idx[q]
  }

  /**
   * The loop `for x in xs: ...` where each element either raises, is skipped,
   * or contributes one value: the values in input order, or the first exception.
   */
  function FilterMap<A, B>(xs: seq<A>, step: A -> Result<Option<B>>): (r: Result<seq<B>>)
    ensures r.Ok? ==> |r.value| <= |xs|
  {
    if xs == [] then Ok([])
    else
      match FilterMap(xs[..|xs| - 1], step)
      case Err(e) => Err(e)
      case Ok(bs) =>
        match step(xs[|xs| - 1])
        case Err(e) => Err(e)
        case Ok(None) => Ok(bs)
        case Ok(Some(b)) => Ok(bs + [b])
  }

  /** One more loop iteration, as the imperative loops perform it. */
  lemma FilterMapExtend<A, B>(xs: seq<A>, i: nat, step: A -> Result<Option<B>>)
    requires i < |xs|
    ensures FilterMap(xs[..i + 1], step) ==
      match FilterMap(xs[..i], step)
      case Err(e) => Err(e)
      case Ok(bs) =>
        match step(xs[i])
        case Err(e) => Err(e)
        case Ok(None) => Ok(bs)
        case Ok(Some(b)) => Ok(bs + [b])
  {
    assert xs[..i + 1][..i] == xs[..i];
  }

  /** One successful step of the loop: the result so far grows by the step's value, if any. */
  lemma FilterMapStepOk<A, B>(xs: seq<A>, i: nat, step: A -> Result<Option<B>>, bs: seq<B>)
    requires i < |xs| && FilterMap(xs[..i], step) == Ok(bs) && step(xs[i]).Ok?
    ensures step(xs[i]).value.None? ==> FilterMap(xs[..i + 1], step) == Ok(bs)
    ensures step(xs[i]).value.Some? ==> FilterMap(xs[..i + 1], step) == Ok(bs + [step(xs[i]).value.value])
  {
    FilterMapExtend(xs, i, step);
  }

  /** One failing step of the loop: its error becomes the result so far. */
  lemma FilterMapStepErr<A, B>(xs: seq<A>, i: nat, step: A -> Result<Option<B>>)
    requires i < |xs| && FilterMap(xs[..i], step).Ok? && step(xs[i]).Err?
    ensures FilterMap(xs[..i + 1], step) == Err(step(xs[i]).error)
  {
    FilterMapExtend(xs, i, step);
  }

  /** Once a prefix of the loop has raised, the whole loop raises that exception. */
  lemma {:induction false} FilterMapErrorPersists<A, B>(xs: seq<A>, i: nat, step: A -> Result<Option<B>>)
    requires i <= |xs| && FilterMap(xs[..i], step).Err?
    ensures FilterMap(xs, step) == FilterMap(xs[..i], step)
    decreases |xs| - i
  {
    if i == |xs| {
      assert xs[..i] == xs;
    } else {
      FilterMapExtend(xs, i, step);
      FilterMapErrorPersists(xs, i + 1, step);
    }
  }

  /** The loop raises exactly when some element's step raises. */
  lemma {:induction false} FilterMapOkIff<A, B>(xs: seq<A>, step: A -> Result<Option<B>>)
    ensures FilterMap(xs, step).Ok? <==> forall j :: 0 <= j < |xs| ==> step(xs[j]).Ok?
  {
    if xs != [] {
      var init := xs[..|xs| - 1];
      FilterMapOkIff(init, step);
      assert forall j :: 0 <= j < |init| ==> init[j] == xs[j];
    }
  }

  /** The exception the loop raises is that of the first element whose step raises. */
  lemma {:induction false} FilterMapFirstError<A, B>(xs: seq<A>, step: A -> Result<Option<B>>) returns (i: nat)
    requires FilterMap(xs, step).Err?
    ensures i < |xs| && step(xs[i]) == Err(FilterMap(xs, step).error)
    ensures forall j :: 0 <= j < i ==> step(xs[j]).Ok?
  {
    var init := xs[..|xs| - 1];
    assert forall j :: 0 <= j < |init| ==> init[j] == xs[j];
    if FilterMap(init, step).Err? {
      i := FilterMapFirstError(init, step);
    } else {
      FilterMapOkIff(init, step);
      i := |xs| - 1;
    }
  }

  /**
   * A successful loop keeps exactly the elements whose step yields a value,
   * in input order: `idx` lists their positions.
   */
  lemma {:induction false} FilterMapSelects<A, B>(xs: seq<A>, step: A -> Result<Option<B>>) returns (idx: seq<nat>)
    requires FilterMap(xs, step).Ok?
    ensures var out := FilterMap(xs, step).value;
      && |idx| == |out|
      && Increasing(idx)
      && (forall k :: 0 <= k < |idx| ==> idx[k] < |xs| && step(xs[idx[k]]) == Ok(Some(out[k])))
      && (forall j :: 0 <= j < |xs| ==> step(xs[j]).Ok? && (j in idx <==> step(xs[j]).value.Some?))
  {
    if xs == [] {
      idx := [];
    } else {
      var n := |xs| - 1;
      var init := xs[..n];
      assert forall j :: 0 <= j < |init| ==> init[j] == xs[j];
      var pre := FilterMapSelects(init, step);
      if step(xs[n]).value.Some? {
        idx := pre + [n];
      } else {
        idx := pre;
      }
    }
  }
}
