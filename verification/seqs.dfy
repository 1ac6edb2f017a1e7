/** Order-preserving selection over sequences: the shape of a loop that walks
    its input once and appends what each element yields. */
module Seqs {
  import opened Wrappers

  /** The values `f` yields over `xs`, in the order of `xs`, with the elements
      that yield nothing skipped. */
  function FilterMap<X, Y>(f: X -> Option<Y>, xs: seq<X>): (ys: seq<Y>)
    ensures |ys| <= |xs|
    decreases |xs|
  {
    if |xs| == 0 then []
    else FilterMap(f, xs[..|xs| - 1]) + f(xs[|xs| - 1]).ToSeq()
  }

  /** Selecting over a concatenation selects over each part in turn. */
  lemma {:induction false} FilterMapAppend<X, Y>(f: X -> Option<Y>, xs: seq<X>, ys: seq<X>)
    ensures FilterMap(f, xs + ys) == FilterMap(f, xs) + FilterMap(f, ys)
    decreases |ys|
  {
    if |ys| == 0 {
      assert xs + ys == xs;
    } else {
      var all := xs + ys;
      var front := ys[..|ys| - 1];
      assert all[..|all| - 1] == xs + front;
      assert all[|all| - 1] == ys[|ys| - 1];
      FilterMapAppend(f, xs, front);
    }
  }

  /** The positions of the elements for which `f` yields a value, increasing. */
  function Hits<X, Y>(f: X -> Option<Y>, xs: seq<X>): (idx: seq<nat>)
    ensures forall k :: 0 <= k < |idx| ==> idx[k] < |xs|
    ensures forall k, l :: 0 <= k < l < |idx| ==> idx[k] < idx[l]
    ensures forall i :: 0 <= i < |xs| ==> (i in idx <==> f(xs[i]).Some?)
    decreases |xs|
  {
    if |xs| == 0 then []
    else
      var n := |xs| - 1;
      var front := xs[..n];
      assert forall i :: 0 <= i < n ==> front[i] == xs[i];
      Hits(f, front) + (if f(xs[n]).Some? then [n] else [])
  }

  /** The selection is exactly the subsequence of yielded values: its k-th
      value is what `f` yields at the k-th hit position. */
  lemma {:induction false} FilterMapFollowsHits<X, Y>(f: X -> Option<Y>, xs: seq<X>)
    ensures |Hits(f, xs)| == |FilterMap(f, xs)|
    ensures forall k :: 0 <= k < |Hits(f, xs)| ==> f(xs[Hits(f, xs)[k]]) == Some(FilterMap(f, xs)[k])
    decreases |xs|
  {
    if |xs| > 0 {
      var n := |xs| - 1;
      var front := xs[..n];
      FilterMapFollowsHits(f, front);
      var h, ys, o := Hits(f, front), FilterMap(f, front), f(xs[n]);
      assert Hits(f, xs) == h + (if o.Some? then [n] else []);
      assert FilterMap(f, xs) == ys + o.ToSeq();
      forall k | 0 <= k < |Hits(f, xs)|
        ensures f(xs[Hits(f, xs)[k]]) == Some(FilterMap(f, xs)[k])
      {
        if k < |h| {
          assert Hits(f, xs)[k] == h[k] && FilterMap(f, xs)[k] == ys[k];
          assert xs[h[k]] == front[h[k]];
        }
      }
    }
  }

  /** Every value `f` yields on an element of `xs` is in the selection. */
  lemma FilterMapComplete<X, Y>(f: X -> Option<Y>, xs: seq<X>, i: nat)
    requires i < |xs| && f(xs[i]).Some?
    ensures f(xs[i]).value in FilterMap(f, xs)
  {
    var idx := Hits(f, xs);
    FilterMapFollowsHits(f, xs);
    assert i in idx;
    var k :| 0 <= k < |idx| && idx[k] == i;
    assert FilterMap(f, xs)[k] == f(xs[i]).value;
  }

  /** Every value in the selection was yielded by some element of `xs`. */
  lemma FilterMapSound<X, Y>(f: X -> Option<Y>, xs: seq<X>, y: Y)
    requires y in FilterMap(f, xs)
    ensures exists i :: 0 <= i < |xs| && f(xs[i]) == Some(y)
  {
    FilterMapFollowsHits(f, xs);
    var k :| 0 <= k < |FilterMap(f, xs)| && FilterMap(f, xs)[k] == y;
    assert f(xs[Hits(f, xs)[k]]) == Some(y);
  }
}
