/** The class bookkeeping of `fit`: `np.unique(y, return_counts=True)` and
    `np.where(y == c)[0]`. Labels are integers. */
module Grouping {

  predicate StrictlyIncreasing(s: seq<int>) {
    forall i, j :: 0 <= i < j < |s| ==> s[i] < s[j]
  }

  /** Every entry of `u` is one of the labels of `y`. */
  predicate ClassesOf(y: seq<int>, u: seq<int>) {
    forall i :: 0 <= i < |u| ==> u[i] in y
  }

  /** Adds `x` to a strictly increasing sequence, keeping it so. */
  function InsertSorted(s: seq<int>, x: int): (r: seq<int>)
    requires StrictlyIncreasing(s)
    ensures StrictlyIncreasing(r)
    ensures forall z :: z in r <==> z in s || z == x
    ensures |r| <= |s| + 1
  {
    if s == [] then [x]
    else if x < s[0] then [x] + s
    else if x == s[0] then s
    else
      var r := InsertSorted(s[1..], x);
      AboveHead(s, x, r);
      ConsIncreasing(s[0], r);
      [s[0]] + r
  }

  /** What is inserted into the tail of `s`, beyond its head, stays beyond it. */
  lemma AboveHead(s: seq<int>, x: int, r: seq<int>)
    requires StrictlyIncreasing(s) && |s| > 0 && s[0] < x
    requires forall z :: z in r <==> z in s[1..] || z == x
    ensures forall i :: 0 <= i < |r| ==> s[0] < r[i]
  {
    forall i | 0 <= i < |r| ensures s[0] < r[i] {
      assert r[i] in r;
      if r[i] != x {
        var j :| 0 <= j < |s[1..]| && s[1..][j] == r[i];
        assert s[j + 1] == r[i];
      }
    }
  }

  lemma ConsIncreasing(a: int, r: seq<int>)
    requires StrictlyIncreasing(r) && forall i :: 0 <= i < |r| ==> a < r[i]
    ensures StrictlyIncreasing([a] + r)
  {
  }

  /** The sorted unique labels, `np.unique(y)`. */
  function Unique(y: seq<int>): (u: seq<int>)
    ensures StrictlyIncreasing(u)
    ensures forall z :: z in u <==> z in y
    ensures |u| <= |y|
  {
    if y == [] then []
    else
      var init := y[..|y| - 1];
      assert y == init + [y[|y| - 1]];
      InsertSorted(Unique(init), y[|y| - 1])
  }

  /** The labels `np.unique` finds are labels of `y`, and there is at least one
      when `y` is not empty. */
  lemma UniqueAreClasses(y: seq<int>)
    ensures ClassesOf(y, Unique(y))
    ensures |y| > 0 ==> |Unique(y)| > 0
  {
    if |y| > 0 {
      assert y[0] in Unique(y);
    }
  }

  /** Number of positions of `y` holding `c`. */
  function Count(y: seq<int>, c: int): nat {
    if y == [] then 0
    else Count(y[..|y| - 1], c) + (if y[|y| - 1] == c then 1 else 0)
  }

  /** The class counts that `np.unique(y, return_counts=True)` returns beside `u`. */
  function Counts(y: seq<int>, u: seq<int>): (counts: seq<nat>)
    ensures |counts| == |u|
    ensures forall i :: 0 <= i < |u| ==> counts[i] == Count(y, u[i])
  {
    if u == [] then [] else Counts(y, u[..|u| - 1]) + [Count(y, u[|u| - 1])]
  }

  /** `np.where(y == c)[0]`: the positions holding `c`, in increasing order. */
  function Where(y: seq<int>, c: int): (idx: seq<nat>)
    ensures |idx| == Count(y, c)
    ensures forall a :: 0 <= a < |idx| ==> idx[a] < |y| && y[idx[a]] == c
  {
    if y == [] then []
    else
      var init := y[..|y| - 1];
      assert y == init + [y[|y| - 1]];
      Where(init, c) + (if y[|y| - 1] == c then [|y| - 1] else [])
  }

  /** Every position holding `c` is listed by `Where(y, c)`. */
  lemma {:induction false} WhereComplete(y: seq<int>, c: int, j: nat)
    requires j < |y| && y[j] == c
    ensures j in Where(y, c)
  {
    var init := y[..|y| - 1];
    if j < |y| - 1 {
      WhereComplete(init, c, j);
    }
  }

  /** `Where(y, c)` lists its positions in increasing order. */
  lemma {:induction false} WhereIncreasing(y: seq<int>, c: int)
    ensures StrictlyIncreasing(Where(y, c))
  {
    if y != [] {
      WhereIncreasing(y[..|y| - 1], c);
    }
  }

  /** A label that occurs has a positive count. */
  lemma CountPositive(y: seq<int>, c: int)
    requires c in y
    ensures Count(y, c) > 0
  {
    var j :| 0 <= j < |y| && y[j] == c;
    WhereComplete(y, c, j);
  }

  function SumNat(s: seq<nat>): nat {
    if s == [] then 0 else SumNat(s[..|s| - 1]) + s[|s| - 1]
  }

  /** A value occurs at most once in a strictly increasing sequence. */
  lemma {:induction false} CountDistinct(u: seq<int>, x: int)
    requires StrictlyIncreasing(u)
    ensures Count(u, x) == if x in u then 1 else 0
  {
    if u != [] {
      var init := u[..|u| - 1];
      assert u == init + [u[|u| - 1]];
      CountDistinct(init, x);
      if u[|u| - 1] == x {
        assert x !in init by {
          forall k | 0 <= k < |init| ensures init[k] != x {
            assert init[k] == u[k] < u[|u| - 1];
          }
        }
      }
    }
  }

  /** Appending a label `x` adds one to the class counts exactly as often as `x` is a class. */
  lemma {:induction false} CountsAppend(y: seq<int>, x: int, u: seq<int>)
    ensures SumNat(Counts(y + [x], u)) == SumNat(Counts(y, u)) + Count(u, x)
  {
    if u != [] {
      var init := u[..|u| - 1];
      CountsAppend(y, x, init);
      assert (y + [x])[..|y|] == y;
      assert Counts(y + [x], u)[..|u| - 1] == Counts(y + [x], init);
      assert Counts(y, u)[..|u| - 1] == Counts(y, init);
    }
  }

  /** Counting over distinct classes that cover every label accounts for every position once. */
  lemma {:induction false} CountsCover(y: seq<int>, u: seq<int>)
    requires StrictlyIncreasing(u)
    requires forall z :: z in y ==> z in u
    ensures SumNat(Counts(y, u)) == |y|
  {
    if y == [] {
      CountsOfEmpty(u);
    } else {
      var init := y[..|y| - 1];
      var x := y[|y| - 1];
      assert y == init + [x];
      CountsCover(init, u);
      CountsAppend(init, x, u);
      CountDistinct(u, x);
    }
  }

  lemma {:induction false} CountsOfEmpty(u: seq<int>)
    ensures SumNat(Counts([], u)) == 0
  {
    if u != [] {
      CountsOfEmpty(u[..|u| - 1]);
    }
  }

  /** The classes found by `np.unique` are strictly increasing, each has at least
      one sample, and their counts add up to the number of samples. */
  lemma ClassCounts(y: seq<int>)
    ensures StrictlyIncreasing(Unique(y))
    ensures forall i :: 0 <= i < |Unique(y)| ==> Counts(y, Unique(y))[i] >= 1
    ensures SumNat(Counts(y, Unique(y))) == |y|
  {
    var u := Unique(y);
    forall i | 0 <= i < |u| ensures Counts(y, u)[i] >= 1 {
      CountPositive(y, u[i]);
    }
    CountsCover(y, u);
  }

  /** The index sets `C_i = np.where(y == u[i])[0]` partition `0 .. |y| - 1`:
      sample `j` lies in the set of the class holding its label, and in no other. */
  lemma {:induction false} ClassOfSample(y: seq<int>, j: nat) returns (i: nat)
    requires j < |y|
    ensures i < |Unique(y)| && Unique(y)[i] == y[j] && j in Where(y, Unique(y)[i])
    ensures forall i' :: 0 <= i' < |Unique(y)| && j in Where(y, Unique(y)[i']) ==> i' == i
  {
    var u := Unique(y);
    assert y[j] in u;
    i :| 0 <= i < |u| && u[i] == y[j];
    WhereComplete(y, y[j], j);
    forall i' | 0 <= i' < |u| && j in Where(y, u[i']) ensures i' == i {
      var w := Where(y, u[i']);
      var a :| 0 <= a < |w| && w[a] == j;
      assert u[i'] == y[j];
    }
  }
}
