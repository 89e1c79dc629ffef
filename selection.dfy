/** Direction selection at the end of `fit`: `np.argsort(evals)[::-1]`, the
    column reordering `evecs[:, order]`, the slice `[:, :ndims]` and the
    transpose that gives `W_`. */
module Selection {
  import opened Linalg

  /** `np.arange(n)`. */
  function Range(n: nat): (r: seq<nat>)
    ensures |r| == n && forall i :: 0 <= i < n ==> r[i] == i
  {
    seq(n, i => i)
  }

  /** Every entry of `order` is an index below `n`. */
  predicate Indexes(order: seq<nat>, n: nat) {
    forall a :: 0 <= a < |order| ==> order[a] < n
  }

  /** `order` rearranges `0 .. n - 1`, each index once. */
  predicate IsPermutation(order: seq<nat>, n: nat) {
    multiset(order) == multiset(Range(n))
  }

  /** The eigenvalues read through `order` do not decrease. */
  predicate Ascending(ev: seq<real>, order: seq<nat>)
    requires Indexes(order, |ev|)
  {
    forall a, b :: 0 <= a < b < |order| ==> ev[order[a]] <= ev[order[b]]
  }

  /** The eigenvalues read through `order` do not increase. */
  predicate Descending(ev: seq<real>, order: seq<nat>)
    requires Indexes(order, |ev|)
  {
    forall a, b :: 0 <= a < b < |order| ==> ev[order[a]] >= ev[order[b]]
  }

  /** Places index `j` into an ascending `order`, after every index whose
      eigenvalue is not above `ev[j]`. */
  function InsertIndex(ev: seq<real>, order: seq<nat>, j: nat): (r: seq<nat>)
    requires j < |ev| && Indexes(order, |ev|) && Ascending(ev, order)
    ensures Indexes(r, |ev|) && Ascending(ev, r)
    ensures multiset(r) == multiset(order) + multiset{j}
    decreases |order|
  {
    if order == [] then [j]
    else
      var init, last := order[..|order| - 1], order[|order| - 1];
      assert order == init + [last];
      if ev[last] <= ev[j] then
        AtMostLast(ev, order);
        AppendAscending(ev, order, j);
        order + [j]
      else
        var r := InsertIndex(ev, init, j);
        BelowLast(ev, order, j, r);
        AppendAscending(ev, r, last);
        r + [last]
  }

  /** Every eigenvalue read through an ascending `order` is at most its last one. */
  lemma AtMostLast(ev: seq<real>, order: seq<nat>)
    requires |order| > 0 && Indexes(order, |ev|) && Ascending(ev, order)
    ensures forall a :: 0 <= a < |order| ==> ev[order[a]] <= ev[order[|order| - 1]]
  {
    forall a | 0 <= a < |order| ensures ev[order[a]] <= ev[order[|order| - 1]] {
      if a < |order| - 1 {
        assert ev[order[a]] <= ev[order[|order| - 1]];
      }
    }
  }

  /** An index whose eigenvalue is at least every one in `s` extends it ascending. */
  lemma AppendAscending(ev: seq<real>, s: seq<nat>, x: nat)
    requires Indexes(s, |ev|) && Ascending(ev, s) && x < |ev|
    requires forall a :: 0 <= a < |s| ==> ev[s[a]] <= ev[x]
    ensures Indexes(s + [x], |ev|) && Ascending(ev, s + [x])
  {
    var t := s + [x];
    forall a, b | 0 <= a < b < |t| ensures ev[t[a]] <= ev[t[b]] {
      assert t[a] == s[a];
    }
  }

  /** What is inserted ahead of the last index of an ascending `order` has an
      eigenvalue no larger than the last one's. */
  lemma BelowLast(ev: seq<real>, order: seq<nat>, j: nat, r: seq<nat>)
    requires |order| > 0 && Indexes(order, |ev|) && Ascending(ev, order)
    requires j < |ev| && ev[j] < ev[order[|order| - 1]]
    requires Indexes(r, |ev|) && multiset(r) == multiset(order[..|order| - 1]) + multiset{j}
    ensures forall a :: 0 <= a < |r| ==> ev[r[a]] <= ev[order[|order| - 1]]
  {
    var init := order[..|order| - 1];
    forall a | 0 <= a < |r| ensures ev[r[a]] <= ev[order[|order| - 1]] {
      assert r[a] in multiset(r);
      if r[a] != j {
        assert r[a] in multiset(init);
        var b :| 0 <= b < |init| && init[b] == r[a];
        assert order[b] == r[a];
      }
    }
  }

  /** `np.argsort(ev)` restricted to the first `k` indices, as an insertion sort. */
  function Argsort(ev: seq<real>, k: nat): (order: seq<nat>)
    requires k <= |ev|
    ensures Indexes(order, |ev|) && Ascending(ev, order)
    ensures IsPermutation(order, k)
  {
    if k == 0 then []
    else
      assert Range(k) == Range(k - 1) + [k - 1];
      InsertIndex(ev, Argsort(ev, k - 1), k - 1)
  }

  /** `s[::-1]`. */
  function Reverse(s: seq<nat>): (r: seq<nat>)
    ensures |r| == |s| && forall i :: 0 <= i < |s| ==> r[i] == s[|s| - 1 - i]
    ensures multiset(r) == multiset(s)
  {
    if s == [] then []
    else
      assert s == s[..|s| - 1] + [s[|s| - 1]];
      [s[|s| - 1]] + Reverse(s[..|s| - 1])
  }

  /** `np.argsort(evals)[::-1]`: every index once, largest eigenvalue first. */
  function DescendingOrder(ev: seq<real>): (order: seq<nat>)
    ensures |order| == |ev| && Indexes(order, |ev|)
    ensures IsPermutation(order, |ev|)
    ensures Descending(ev, order)
  {
    var up := Argsort(ev, |ev|);
    var down := Reverse(up);
    assert |up| == |ev| by {
      assert |multiset(up)| == |multiset(Range(|ev|))|;
    }
    ReverseDescending(ev, up, down);
    down
  }

  /** Reading an ascending order backwards gives a descending one. */
  lemma ReverseDescending(ev: seq<real>, up: seq<nat>, down: seq<nat>)
    requires Indexes(up, |ev|) && Ascending(ev, up)
    requires |down| == |up| && forall i :: 0 <= i < |up| ==> down[i] == up[|up| - 1 - i]
    ensures Indexes(down, |ev|) && Descending(ev, down)
  {
    forall a, b | 0 <= a < b < |down| ensures ev[down[a]] >= ev[down[b]] {
      assert down[a] == up[|up| - 1 - a] && down[b] == up[|up| - 1 - b];
    }
  }

  /** Length of `s[:stop]` for `|s| == len`, with Python's reading of a
      negative `stop` as counted from the end. */
  function SliceStop(stop: int, len: nat): (k: nat)
    ensures k <= len
    ensures 0 <= stop <= len ==> k == stop
    ensures stop > len ==> k == len
    ensures stop < 0 ==> k == if len + stop > 0 then len + stop else 0
  {
    if stop >= 0 then (if stop < len then stop else len)
    else if len + stop > 0 then len + stop
    else 0
  }

  /** A 2-D array with its numpy shape: `rows` arrays of `cols` entries. The
      shape is kept apart from the entries because an array with no rows still
      has a width. */
  datatype Shaped = Shaped(rows: nat, cols: nat, entries: Matrix)

  type Weights = w: Shaped | IsMatrix(w.entries, w.rows, w.cols) witness Shaped(0, 0, [])

  /** `evecs[:, order][:, :k].T`: row `r` is the eigenvector in column `order[r]`. */
  function SelectDirections(evecs: Matrix, n: nat, order: seq<nat>, k: nat): (W: Weights)
    requires IsMatrix(evecs, n, n) && |order| == n && Indexes(order, n) && k <= n
    ensures W.rows == k && W.cols == n
    ensures forall r, p :: 0 <= r < k && 0 <= p < n ==> W.entries[r][p] == evecs[p][order[r]]
  {
    var reordered := SubCols(evecs, n, order);
    var top := SubCols(reordered, n, Range(k));
    Shaped(k, n, Transpose(top, k))
  }

  /** The directions kept are the eigenvectors of the `k` largest eigenvalues:
      their eigenvalues do not increase from row to row, and no eigenvector left
      out has an eigenvalue above any kept one. */
  lemma TopDirections(ev: seq<real>, k: nat)
    requires k <= |ev|
    ensures forall r, s :: 0 <= r < s < k ==> ev[DescendingOrder(ev)[r]] >= ev[DescendingOrder(ev)[s]]
    ensures forall j, r :: 0 <= j < |ev| && j !in DescendingOrder(ev)[..k] && 0 <= r < k ==>
      ev[j] <= ev[DescendingOrder(ev)[r]]
  {
    var order := DescendingOrder(ev);
    forall j, r | 0 <= j < |ev| && j !in order[..k] && 0 <= r < k ensures ev[j] <= ev[order[r]] {
      assert Range(|ev|)[j] == j;
      assert j in multiset(Range(|ev|));
      assert j in multiset(order);
      var a :| 0 <= a < |order| && order[a] == j;
      assert a >= k;
    }
  }
}
