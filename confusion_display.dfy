/** The three confusion tables of the confusion-matrix window (testing,
    training, all): one row per output label holding its counts and the row
    total, then a TOTAL row holding the column totals and the grand total. */
module ConfusionDisplay {
  import opened Wrappers
  import opened Grids
  import opened ClassValidationConfusion

  /** A table row: the heading cell and the numeric cells after it (shown
      as decimal strings). */
  datatype Row = Row(head: string, cells: seq<int>)

  const TotalHead := "TOTAL"

  /** The data rows of a table over the counts `g`: row `o` is headed by
      label `o` and holds the counts of row `o` followed by their sum. */
  function DataRows(labels: seq<string>, g: seq<seq<int>>): (rows: seq<Row>)
    requires |g| == |labels|
    ensures |rows| == |labels|
    ensures forall o :: 0 <= o < |labels| ==> rows[o] == Row(labels[o], g[o] + [Sum(g[o])])
  {
    seq(|labels|, o requires 0 <= o < |labels| => Row(labels[o], g[o] + [Sum(g[o])]))
  }

  lemma DataRowsStep(labels: seq<string>, g: seq<seq<int>>, o: nat)
    requires |g| == |labels| && o < |labels|
    ensures DataRows(labels, g)[..o + 1] == DataRows(labels, g)[..o] + [Row(labels[o], g[o] + [Sum(g[o])])]
  {
    assert DataRows(labels, g)[..o + 1] == DataRows(labels, g)[..o] + [DataRows(labels, g)[o]];
  }

  /** A whole table: the data rows, then the TOTAL row holding the column
      totals followed by the sum of all cells. */
  function Table(labels: seq<string>, g: seq<seq<int>>): seq<Row>
    requires |g| == |labels| && Rect(g, |labels|)
  {
    DataRows(labels, g) + [Row(TotalHead, ColTotals(g, |labels|) + [GridSum(g)])]
  }

  /** A table has one row per label plus the total row, every row has one
      cell per label plus a total, and the grand total is both the sum of
      the row totals and the sum of the column totals. */
  lemma TableTotals(labels: seq<string>, g: seq<seq<int>>)
    requires |g| == |labels| && Rect(g, |labels|)
    ensures var t, n := Table(labels, g), |labels|;
      && |t| == n + 1
      && (forall o :: 0 <= o <= n ==> |t[o].cells| == n + 1)
      && t[n].head == TotalHead
      && t[n].cells[n] == Sum(seq(n, o requires 0 <= o < n => t[o].cells[n]))
      && t[n].cells[n] == Sum(t[n].cells[..n])
  {
    var t, n := Table(labels, g), |labels|;
    assert seq(n, o requires 0 <= o < n => t[o].cells[n]) == RowTotals(g);
    RowTotalsSum(g);
    assert t[n].cells[..n] == ColTotals(g, n);
    ColTotalsSum(g, n);
  }

  /** Column sums and grand total accumulated over every row of `g` are
      the cells of its total row. */
  lemma TotalRow(g: seq<seq<int>>, n: nat, t: seq<int>)
    requires |g| == n && Rect(g, n) && |t| == n + 1
    requires forall e :: 0 <= e < n ==> t[e] == ColSum(g[..n], e)
    requires t[n] == GridSum(g[..n])
    ensures t == ColTotals(g, n) + [GridSum(g)]
  {
    PrefixAll(g, n);
    assert forall e :: 0 <= e < n ==> ColSum(g[..n], e) == ColTotals(g, n)[e];
  }

  class Display {
    /** The reporter whose matrices are shown. */
    var reporter: Confusion
    const labels: seq<string>
    /** The testing, training and all tables, in that order. */
    const tables: array<seq<Row>>

    constructor(reporter: Confusion, labels: seq<string>)
      ensures this.reporter == reporter && this.labels == labels
      ensures fresh(tables) && tables.Length == 3
      ensures forall t :: 0 <= t < 3 ==> tables[t] == []
    {
      this.reporter := reporter;
      this.labels := labels;
      tables := new seq<Row>[3](t => []);
    }

    /** The reporter holds three matrices covering every label. */
    predicate Readable()
      reads this, reporter
    {
      && |reporter.matrixArray| == 3
      && forall t :: 0 <= t < 3 ==>
        |labels| <= reporter.matrixArray[t].Length0 && |labels| <= reporter.matrixArray[t].Length1
    }

    /** The counts of matrix `t` for the displayed labels. */
    function Counts(t: nat): (g: seq<seq<int>>)
      requires Readable() && t < 3
      reads this, reporter, reporter.matrixArray[t]
      ensures |g| == |labels| && Rect(g, |labels|)
    {
      Square(reporter.matrixArray[t], |labels|)
    }

    /** Refills the three tables from the reporter's current matrices. */
    method RefillTables()
      requires Readable() && tables.Length == 3
      modifies tables
      ensures forall t :: 0 <= t < 3 ==> tables[t] == Table(labels, Counts(t))
    {
      for kind := 0 to 3
        invariant forall t :: 0 <= t < kind ==> tables[t] == Table(labels, Counts(t))
      {
        FillTable(kind, Counts(kind));
      }
    }

    /** Clears table `kind` and fills it from the counts `g` of its matrix:
        the data rows, accumulating the column totals and the grand total,
        then the total row. */
    method FillTable(kind: nat, ghost g: seq<seq<int>>)
      requires Readable() && tables.Length == 3 && kind < 3
      requires |g| == |labels| && Rect(g, |labels|)
      requires forall o, e :: 0 <= o < |labels| && 0 <= e < |labels| ==> g[o][e] == reporter.matrixArray[kind][o, e]
      modifies tables
      ensures tables[kind] == Table(labels, g)
      ensures forall t :: 0 <= t < 3 && t != kind ==> tables[t] == old(tables[t])
    {
      var n := |labels|;
      tables[kind] := [];
      var total := new int[n + 1](i => 0);
      for o := 0 to n
        invariant forall t :: 0 <= t < 3 && t != kind ==> tables[t] == old(tables[t])
        invariant tables[kind] == DataRows(labels, g)[..o]
        invariant forall e :: 0 <= e < n ==> total[e] == ColSum(g[..o], e)
        invariant total[n] == GridSum(g[..o])
      {
        FillRow(kind, o, total, g);
      }
      assert DataRows(labels, g)[..n] == DataRows(labels, g);
      TotalRow(g, n, total[..]);
      tables[kind] := tables[kind] + [Row(TotalHead, total[..])];
    }

    /** One step of `FillTable`: with the rows before `o` in the table and
        their totals in `total`, appends row `o` and adds it to the totals. */
    method FillRow(kind: nat, o: nat, total: array<int>, ghost g: seq<seq<int>>)
      requires Readable() && tables.Length == 3 && kind < 3 && o < |labels|
      requires |g| == |labels| && Rect(g, |labels|) && total.Length == |labels| + 1
      requires forall e :: 0 <= e < |labels| ==> g[o][e] == reporter.matrixArray[kind][o, e]
      requires tables[kind] == DataRows(labels, g)[..o]
      requires forall e :: 0 <= e < |labels| ==> total[e] == ColSum(g[..o], e)
      requires total[|labels|] == GridSum(g[..o])
      modifies tables, total
      ensures tables[kind] == DataRows(labels, g)[..o + 1]
      ensures forall t :: 0 <= t < 3 && t != kind ==> tables[t] == old(tables[t])
      ensures forall e :: 0 <= e < |labels| ==> total[e] == ColSum(g[..o + 1], e)
      ensures total[|labels|] == GridSum(g[..o + 1])
    {
      AddDataRow(kind, o, total, g[o]);
      PrefixStep(g, |labels|, o);
      DataRowsStep(labels, g, o);
    }

    /** Appends the data row of output label `o` to table `kind`: the label,
        the counts of row `o` (given as `row`) and their sum; the counts are
        added to the column totals and to the grand total kept in `total`. */
    method AddDataRow(kind: nat, o: nat, total: array<int>, ghost row: seq<int>)
      requires Readable() && tables.Length == 3 && kind < 3 && o < |labels|
      requires total.Length == |labels| + 1
      requires |row| == |labels| && forall e :: 0 <= e < |labels| ==> row[e] == reporter.matrixArray[kind][o, e]
      modifies tables, total
      ensures tables[kind] == old(tables[kind]) + [Row(labels[o], row + [Sum(row)])]
      ensures forall t :: 0 <= t < 3 && t != kind ==> tables[t] == old(tables[t])
      ensures forall e :: 0 <= e < |labels| ==> total[e] == old(total[e]) + row[e]
      ensures total[|labels|] == old(total[|labels|]) + Sum(row)
    {
      var n := |labels|;
      var cells := new int[n + 1];
      var rowTotal := 0;
      for e := 0 to n
        invariant unchanged(tables)
        invariant forall f :: 0 <= f < e ==> cells[f] == row[f]
        invariant rowTotal == Sum(row[..e])
        invariant forall f :: 0 <= f < e ==> total[f] == old(total[f]) + row[f]
        invariant forall f :: e <= f < n ==> total[f] == old(total[f])
        invariant total[n] == old(total[n]) + Sum(row[..e])
      {
        var count := reporter.GetCount(kind, o, e);
        assert row[..e + 1][..e] == row[..e];
        cells[e] := count;
        total[e] := total[e] + count;
        rowTotal := rowTotal + count;
        total[n] := total[n] + count;
      }
      assert row[..n] == row;
      cells[n] := rowTotal;
      assert cells[..] == row + [rowTotal];
      tables[kind] := tables[kind] + [Row(labels[o], cells[..])];
    }

    /** After the prediction run, whose I/O failure message (if any) is
        shown, the tables are refilled from whatever the reporter holds. */
    method RunPredictions(failure: Option<string>) returns (shown: Option<string>)
      requires Readable() && tables.Length == 3
      modifies tables
      ensures shown == failure
      ensures forall t :: 0 <= t < 3 ==> tables[t] == Table(labels, Counts(t))
    {
      shown := failure;
      RefillTables();
    }
  }
}
