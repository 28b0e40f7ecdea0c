/** Order-preserving filters: `[x for x, k in zip(xs, keep) if k]`, defined
    element by element from the back, the way a loop that appends builds it. */
module Seqs {

  function Select<T>(xs: seq<T>, keep: seq<bool>): (r: seq<T>)
    requires |keep| == |xs|
    ensures |r| <= |xs|
    decreases |xs|
  {
    if xs == [] then []
    else Select(xs[..|xs| - 1], keep[..|xs| - 1]) + (if keep[|xs| - 1] then [xs[|xs| - 1]] else [])
  }

  /** The positions `Select` keeps, in increasing order. */
  function SelectedIndices(keep: seq<bool>): seq<nat>
    decreases |keep|
  {
    if keep == [] then []
    else SelectedIndices(keep[..|keep| - 1]) + (if keep[|keep| - 1] then [|keep| - 1] else [])
  }

  /** `a` can be obtained from `b` by deleting elements. */
  predicate IsSubsequence<T(==)>(a: seq<T>, b: seq<T>)
    decreases |b|
  {
    a == []
    || (b != [] && ((a[|a| - 1] == b[|b| - 1] && IsSubsequence(a[..|a| - 1], b[..|b| - 1]))
                    || IsSubsequence(a, b[..|b| - 1])))
  }

  /** Every selected index is a position of the input, and they rise
      strictly. */
  lemma {:induction false} SelectedIndicesIncreasing(keep: seq<bool>)
    ensures forall j :: 0 <= j < |SelectedIndices(keep)| ==> SelectedIndices(keep)[j] < |keep|
    ensures forall j, k :: 0 <= j < k < |SelectedIndices(keep)| ==>
              SelectedIndices(keep)[j] < SelectedIndices(keep)[k]
    decreases |keep|
  {
    if keep != [] {
      var n := |keep| - 1;
      SelectedIndicesIncreasing(keep[..n]);
      var idx0 := SelectedIndices(keep[..n]);
      var idx := SelectedIndices(keep);
      assert idx == idx0 + (if keep[n] then [n] else []);
      assert forall j :: 0 <= j < |idx0| ==> idx0[j] < n;
      assert forall j :: 0 <= j < |idx0| ==> idx[j] == idx0[j];
    }
  }

  /** A position is selected exactly when its flag is set. */
  lemma {:induction false} SelectedIndicesMembers(keep: seq<bool>)
    ensures forall i :: 0 <= i < |keep| ==> (keep[i] <==> i in SelectedIndices(keep))
    decreases |keep|
  {
    if keep != [] {
      var n := |keep| - 1;
      SelectedIndicesMembers(keep[..n]);
      SelectedIndicesIncreasing(keep[..n]);
      var idx0 := SelectedIndices(keep[..n]);
      assert forall j :: 0 <= j < |idx0| ==> idx0[j] < n;
      assert n !in idx0;
      forall i | 0 <= i < n
        ensures keep[i] <==> i in SelectedIndices(keep)
      {
        assert keep[..n][i] == keep[i];
      }
    }
  }

  /** The kept elements are exactly the elements at `SelectedIndices`. */
  lemma {:induction false} SelectAtIndices<T>(xs: seq<T>, keep: seq<bool>)
    requires |keep| == |xs|
    ensures |Select(xs, keep)| == |SelectedIndices(keep)|
    ensures forall j :: 0 <= j < |SelectedIndices(keep)| ==>
              SelectedIndices(keep)[j] < |xs| && Select(xs, keep)[j] == xs[SelectedIndices(keep)[j]]
    decreases |xs|
  {
    SelectedIndicesIncreasing(keep);
    if xs != [] {
      var n := |xs| - 1;
      var xs0, keep0 := xs[..n], keep[..n];
      SelectAtIndices(xs0, keep0);
      SelectedIndicesIncreasing(keep0);
      var r0, idx0 := Select(xs0, keep0), SelectedIndices(keep0);
      var r, idx := Select(xs, keep), SelectedIndices(keep);
      var tail: seq<T> := if keep[n] then [xs[n]] else [];
      assert r == r0 + tail;
      assert idx == idx0 + (if keep[n] then [n] else []);
      forall j | 0 <= j < |idx|
        ensures r[j] == xs[idx[j]]
      {
        if j < |idx0| {
          assert r[j] == r0[j] == xs0[idx0[j]];
        }
      }
    }
  }

  lemma {:induction false} SelectIsSubsequence<T>(xs: seq<T>, keep: seq<bool>)
    requires |keep| == |xs|
    ensures IsSubsequence(Select(xs, keep), xs)
    decreases |xs|
  {
    if xs != [] {
      var n := |xs| - 1;
      var r0 := Select(xs[..n], keep[..n]);
      SelectIsSubsequence(xs[..n], keep[..n]);
      var r := Select(xs, keep);
      if keep[n] {
        assert r[..|r| - 1] == r0;
      } else {
        assert r == r0;
      }
    }
  }

  /** Nothing is dropped exactly when every flag is set. */
  lemma {:induction false} SelectAll<T>(xs: seq<T>, keep: seq<bool>)
    requires |keep| == |xs|
    ensures Select(xs, keep) == xs <==> forall i :: 0 <= i < |keep| ==> keep[i]
    decreases |xs|
  {
    if xs != [] {
      var n := |xs| - 1;
      SelectAll(xs[..n], keep[..n]);
      assert xs == xs[..n] + [xs[n]];
      if !keep[n] {
        assert |Select(xs, keep)| <= n;
      }
    }
  }

  /** Everything is dropped exactly when no flag is set. */
  lemma {:induction false} SelectNone<T>(xs: seq<T>, keep: seq<bool>)
    requires |keep| == |xs|
    ensures Select(xs, keep) == [] <==> forall i :: 0 <= i < |keep| ==> !keep[i]
    decreases |xs|
  {
    if xs != [] {
      var n := |xs| - 1;
      SelectNone(xs[..n], keep[..n]);
      assert forall i :: 0 <= i < n ==> keep[..n][i] == keep[i];
    }
  }
}
