/** Mapping a fallible, possibly-dropping step over a sequence, in order, as
    the source's `for ... of` loops over response items do: the first failure
    aborts the whole run, a `None` drops the element. */
module Collecting {
  import opened Wrappers

  function Collect<T, U, E>(xs: seq<T>, f: T -> Result<Option<U>, E>): (r: Result<seq<U>, E>)
    ensures r.Success? <==> forall i :: 0 <= i < |xs| ==> f(xs[i]).Success?
    ensures r.Success? ==> |r.value| <= |xs|
  {
    if xs == [] then Success([])
    else
      var n := |xs| - 1;
      assert forall i :: 0 <= i < n ==> xs[..n][i] == xs[i];
      match Collect(xs[..n], f)
      case Failure(e) => Failure(e)
      case Success(us) =>
        match f(xs[n])
        case Failure(e) => Failure(e)
        case Success(last) => Success(us + (if last.Some? then [last.value] else []))
  }

  /** Whether the step keeps the element. */
  predicate Kept<T, U, E>(f: T -> Result<Option<U>, E>, x: T) {
    f(x).Success? && f(x).value.Some?
  }

  function KeptValue<T, U, E>(f: T -> Result<Option<U>, E>, x: T): U
    requires Kept(f, x)
  {
    f(x).value.value
  }

  /** The positions of the kept elements, ascending. */
  function KeptIndices<T, U, E>(xs: seq<T>, f: T -> Result<Option<U>, E>): (idx: seq<nat>)
    ensures |idx| <= |xs|
    ensures forall k :: 0 <= k < |idx| ==> idx[k] < |xs| && Kept(f, xs[idx[k]])
    ensures forall k, l :: 0 <= k < l < |idx| ==> idx[k] < idx[l]
    ensures forall i :: 0 <= i < |xs| && Kept(f, xs[i]) ==> i in idx
  {
    if xs == [] then []
    else
      var n := |xs| - 1;
      assert forall i :: 0 <= i < n ==> xs[..n][i] == xs[i];
      KeptIndices(xs[..n], f) + (if Kept(f, xs[n]) then [n] else [])
  }

  /** A successful run returns the kept elements' values in their original
      relative order, and nothing else. */
  lemma {:induction false} CollectKeptInOrder<T, U, E>(xs: seq<T>, f: T -> Result<Option<U>, E>)
    ensures var r := Collect(xs, f);
      var idx := KeptIndices(xs, f);
      r.Success? ==>
        && |r.value| == |idx|
        && forall k :: 0 <= k < |idx| ==> r.value[k] == KeptValue(f, xs[idx[k]])
  {
    if xs != [] {
      var n := |xs| - 1;
      assert forall i :: 0 <= i < n ==> xs[..n][i] == xs[i];
      var prefix := xs[..n];
      CollectKeptInOrder(prefix, f);
      var r := Collect(xs, f);
      var p := Collect(prefix, f);
      var pidx := KeptIndices(prefix, f);
      if r.Success? {
        assert KeptIndices(xs, f) == pidx + (if Kept(f, xs[n]) then [n] else []);
        forall k | 0 <= k < |pidx|
          ensures r.value[k] == KeptValue(f, xs[pidx[k]])
        {
          assert r.value[k] == p.value[k];
          assert prefix[pidx[k]] == xs[pidx[k]];
        }
      }
    }
  }

  /** When the step keeps every element the run returns one value per
      element, position by position. */
  lemma CollectKeepsAll<T, U, E>(xs: seq<T>, f: T -> Result<Option<U>, E>)
    requires forall i :: 0 <= i < |xs| ==> Kept(f, xs[i])
    ensures var r := Collect(xs, f);
      && r.Success?
      && |r.value| == |xs|
      && forall i :: 0 <= i < |xs| ==> r.value[i] == KeptValue(f, xs[i])
  {
    var idx := KeptIndices(xs, f);
    CollectKeptInOrder(xs, f);
    IndicesOfAll(idx, |xs|);
  }

  /** An ascending sequence of indices below `n` that holds every index below
      `n` is `0, 1, ..., n - 1`. */
  lemma {:induction false} IndicesOfAll(idx: seq<nat>, n: nat)
    requires |idx| <= n
    requires forall k :: 0 <= k < |idx| ==> idx[k] < n
    requires forall k, l :: 0 <= k < l < |idx| ==> idx[k] < idx[l]
    requires forall i :: 0 <= i < n ==> i in idx
    ensures |idx| == n && forall k :: 0 <= k < n ==> idx[k] == k
  {
    if n > 0 {
      assert n - 1 in idx;
      var m := |idx| - 1;
      assert idx[m] == n - 1 by {
        var k :| 0 <= k < |idx| && idx[k] == n - 1;
        assert k == m;
      }
      var prefix := idx[..m];
      forall i | 0 <= i < n - 1 ensures i in prefix {
        assert i in idx;
        var k :| 0 <= k < |idx| && idx[k] == i;
        assert k != m;
        assert prefix[k] == i;
      }
      IndicesOfAll(prefix, n - 1);
    }
  }

  /** A failed run fails with the error of the first element whose step
      fails. */
  lemma {:induction false} CollectFirstError<T, U, E>(xs: seq<T>, f: T -> Result<Option<U>, E>)
    ensures var r := Collect(xs, f);
      r.Failure? ==>
        exists i :: 0 <= i < |xs| && f(xs[i]).Failure? && r.error == f(xs[i]).error
          && forall j :: 0 <= j < i ==> f(xs[j]).Success?
  {
    if xs != [] {
      var n := |xs| - 1;
      assert forall i :: 0 <= i < n ==> xs[..n][i] == xs[i];
      CollectFirstError(xs[..n], f);
    }
  }

  /** The run depends only on what the step does to the elements present. */
  lemma {:induction false} CollectSameSteps<T, U, E>(xs: seq<T>, f: T -> Result<Option<U>, E>, g: T -> Result<Option<U>, E>)
    requires forall i :: 0 <= i < |xs| ==> f(xs[i]) == g(xs[i])
    ensures Collect(xs, f) == Collect(xs, g)
  {
    if xs != [] {
      var n := |xs| - 1;
      assert forall i :: 0 <= i < n ==> xs[..n][i] == xs[i];
      CollectSameSteps(xs[..n], f, g);
    }
  }
}
