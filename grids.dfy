/** Sums over rows, columns and whole grids of integer counts, the arithmetic
    behind the confusion matrices and their total rows and columns. */
module Grids {

  /** The sum of a sequence, accumulated from the front as a loop does. */
  function Sum(s: seq<int>): int
    decreases |s|
  {
    if |s| == 0 then 0 else Sum(s[..|s| - 1]) + s[|s| - 1]
  }

  /** Every row of `g` has `m` cells. */
  predicate Rect(g: seq<seq<int>>, m: nat) {
    forall o :: 0 <= o < |g| ==> |g[o]| == m
  }

  /** The sum of column `e` over the rows of `g`. */
  function ColSum(g: seq<seq<int>>, e: nat): int
    requires forall o :: 0 <= o < |g| ==> e < |g[o]|
    decreases |g|
  {
    if |g| == 0 then 0 else ColSum(g[..|g| - 1], e) + g[|g| - 1][e]
  }

  /** The sum of all cells of `g`. */
  function GridSum(g: seq<seq<int>>): int
    decreases |g|
  {
    if |g| == 0 then 0 else GridSum(g[..|g| - 1]) + Sum(g[|g| - 1])
  }

  /** The row totals of `g`, in row order. */
  function RowTotals(g: seq<seq<int>>): (r: seq<int>)
    ensures |r| == |g|
    ensures forall o :: 0 <= o < |g| ==> r[o] == Sum(g[o])
  {
    seq(|g|, o requires 0 <= o < |g| => Sum(g[o]))
  }

  /** The column totals of a grid whose rows have `m` cells, in column order. */
  function ColTotals(g: seq<seq<int>>, m: nat): (r: seq<int>)
    requires Rect(g, m)
    ensures |r| == m
    ensures forall e :: 0 <= e < m ==> r[e] == ColSum(g, e)
  {
    seq(m, e requires 0 <= e < m => ColSum(g, e))
  }

  lemma {:induction false} SumAdd(a: seq<int>, b: seq<int>, c: seq<int>)
    requires |a| == |b| == |c|
    requires forall i :: 0 <= i < |c| ==> c[i] == a[i] + b[i]
    ensures Sum(c) == Sum(a) + Sum(b)
    decreases |c|
  {
    if |c| > 0 {
      var k := |c| - 1;
      SumAdd(a[..k], b[..k], c[..k]);
    }
  }

  /** Summing the row totals gives the sum of every cell. */
  lemma {:induction false} RowTotalsSum(g: seq<seq<int>>)
    ensures Sum(RowTotals(g)) == GridSum(g)
    decreases |g|
  {
    if |g| > 0 {
      var k := |g| - 1;
      assert RowTotals(g)[..k] == RowTotals(g[..k]);
      RowTotalsSum(g[..k]);
    }
  }

  /** Summing the column totals gives the sum of every cell too. */
  lemma {:induction false} ColTotalsSum(g: seq<seq<int>>, m: nat)
    requires Rect(g, m)
    ensures Sum(ColTotals(g, m)) == GridSum(g)
    decreases |g|
  {
    if |g| > 0 {
      var k := |g| - 1;
      var prev := ColTotals(g[..k], m);
      ColTotalsSum(g[..k], m);
      forall e | 0 <= e < m
        ensures ColTotals(g, m)[e] == prev[e] + g[k][e]
      {
        assert g[..k][..] == g[..k];
      }
      SumAdd(prev, g[k], ColTotals(g, m));
    } else {
      SumZero(ColTotals(g, m));
    }
  }

  lemma {:induction false} SumZero(s: seq<int>)
    requires forall i :: 0 <= i < |s| ==> s[i] == 0
    ensures Sum(s) == 0
    decreases |s|
  {
    if |s| > 0 {
      SumZero(s[..|s| - 1]);
    }
  }

  /** Raising one entry by one raises the sum by one. */
  lemma {:induction false} SumBump(a: seq<int>, b: seq<int>, k: nat)
    requires |a| == |b| && k < |a|
    requires b[k] == a[k] + 1
    requires forall i :: 0 <= i < |a| && i != k ==> b[i] == a[i]
    ensures Sum(b) == Sum(a) + 1
    decreases |a|
  {
    var n := |a| - 1;
    if k == n {
      assert a[..n] == b[..n];
    } else {
      SumBump(a[..n], b[..n], k);
    }
  }

  /** Raising one cell by one raises the grid sum by one. */
  lemma {:induction false} GridBump(a: seq<seq<int>>, b: seq<seq<int>>, o: nat, e: nat)
    requires |a| == |b| && o < |a|
    requires |a[o]| == |b[o]| && e < |a[o]|
    requires b[o][e] == a[o][e] + 1
    requires forall i :: 0 <= i < |a[o]| && i != e ==> b[o][i] == a[o][i]
    requires forall r :: 0 <= r < |a| && r != o ==> b[r] == a[r]
    ensures GridSum(b) == GridSum(a) + 1
    decreases |a|
  {
    var n := |a| - 1;
    if o == n {
      assert a[..n] == b[..n];
      SumBump(a[o], b[o], e);
    } else {
      GridBump(a[..n], b[..n], o, e);
    }
  }

  /** The `n` by `n` grid whose cell `[o][e]` is the multiplicity of `(o, e)`. */
  function Counts(cells: multiset<(int, int)>, n: nat): (g: seq<seq<int>>)
    ensures |g| == n && Rect(g, n)
    ensures forall o, e :: 0 <= o < n && 0 <= e < n ==> g[o][e] == cells[(o, e)]
  {
    seq(n, o requires 0 <= o < n => seq(n, e requires 0 <= e < n => cells[(o, e)]))
  }

  /** Counting a multiset of positions on a grid that holds them all: the
      cells add up to the number of positions. */
  lemma CountsSum(cells: multiset<(int, int)>, n: nat)
    requires forall x :: x in cells ==> 0 <= x.0 < n && 0 <= x.1 < n
    ensures GridSum(Counts(cells, n)) == |cells|
    decreases |cells|
  {
    if |cells| == 0 {
      GridZero(Counts(cells, n));
    } else {
      var x :| x in cells;
      CountsSum(cells - multiset{x}, n);
      CountsStep(cells, x, n);
    }
  }

  lemma CountsStep(cells: multiset<(int, int)>, x: (int, int), n: nat)
    requires x in cells && 0 <= x.0 < n && 0 <= x.1 < n
    ensures GridSum(Counts(cells, n)) == GridSum(Counts(cells - multiset{x}, n)) + 1
  {
    var a, b := Counts(cells - multiset{x}, n), Counts(cells, n);
    forall r | 0 <= r < n && r != x.0
      ensures b[r] == a[r]
    {
      assert forall e :: 0 <= e < n ==> b[r][e] == a[r][e];
    }
    GridBump(a, b, x.0, x.1);
  }

  lemma {:induction false} GridZero(g: seq<seq<int>>)
    requires forall o, e :: 0 <= o < |g| && 0 <= e < |g[o]| ==> g[o][e] == 0
    ensures GridSum(g) == 0
    decreases |g|
  {
    if |g| > 0 {
      var k := |g| - 1;
      SumZero(g[k]);
      GridZero(g[..k]);
    }
  }

  /** Adding two grids cell by cell adds their sums. */
  lemma {:induction false} GridAdd(a: seq<seq<int>>, b: seq<seq<int>>, c: seq<seq<int>>)
    requires |a| == |b| == |c|
    requires forall o :: 0 <= o < |c| ==> |a[o]| == |b[o]| == |c[o]|
    requires forall o, e :: 0 <= o < |c| && 0 <= e < |c[o]| ==> c[o][e] == a[o][e] + b[o][e]
    ensures GridSum(c) == GridSum(a) + GridSum(b)
    decreases |c|
  {
    if |c| > 0 {
      var k := |c| - 1;
      SumAdd(a[k], b[k], c[k]);
      GridAdd(a[..k], b[..k], c[..k]);
    }
  }

  /** A grid that gained one count per position of `cells` grew by the
      number of positions. */
  lemma CountedSum(before: seq<seq<int>>, after: seq<seq<int>>, cells: multiset<(int, int)>, n: nat)
    requires |before| == |after| == n && Rect(before, n) && Rect(after, n)
    requires forall x :: x in cells ==> 0 <= x.0 < n && 0 <= x.1 < n
    requires forall o, e :: 0 <= o < n && 0 <= e < n ==> after[o][e] == before[o][e] + cells[(o, e)]
    ensures GridSum(after) == GridSum(before) + |cells|
  {
    CountsSum(cells, n);
    GridAdd(before, Counts(cells, n), after);
  }

  /** Taking one more row into a prefix adds that row to the column sums
      and to the grid sum. */
  lemma PrefixStep(g: seq<seq<int>>, m: nat, o: nat)
    requires Rect(g, m) && o < |g|
    ensures GridSum(g[..o + 1]) == GridSum(g[..o]) + Sum(g[o])
    ensures forall e :: 0 <= e < m ==> ColSum(g[..o + 1], e) == ColSum(g[..o], e) + g[o][e]
  {
    assert g[..o + 1][..o] == g[..o];
  }

  /** The whole grid is its own prefix. */
  lemma PrefixAll(g: seq<seq<int>>, m: nat)
    requires Rect(g, m)
    ensures ColTotals(g[..|g|], m) == ColTotals(g, m) && GridSum(g[..|g|]) == GridSum(g)
  {
    assert g[..|g|] == g;
  }
}
