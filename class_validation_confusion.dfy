/** The confusion-matrix report of a classification model: for every
    prediction row, the cell [output label][expected label] of the training
    or the testing matrix is counted, and at the end the two are summed into
    a third matrix. */
module ClassValidationConfusion {
  import opened Grids

  /** A batch of per-row label scores. Only the supplied `computeBest` looks
      inside it, so its contents are not modelled further. */
  type Batch = seq<seq<real>>

  /** Positions of the three matrices in `matrixArray`. */
  const TestType := 0
  const TrainType := 1
  const AllType := 2

  /** The top-left `n` by `n` cells of `m`, as values. */
  function Square(m: array2<int>, n: nat): (g: seq<seq<int>>)
    requires n <= m.Length0 && n <= m.Length1
    reads m
    ensures |g| == n && Rect(g, n)
    ensures forall o, e :: 0 <= o < n && 0 <= e < n ==> g[o][e] == m[o, e]
  {
    seq(n, o requires 0 <= o < n reads m => seq(n, e requires 0 <= e < n reads m => m[o, e]))
  }

  class Confusion {
    /** Whether a row id belongs to the training set (supplied by the report base class). */
    const isTrained: string -> bool
    /** The index of the best label of row `r` of a batch (supplied by the training library). */
    const computeBest: (Batch, int) -> int

    var nLabels: nat
    /** Counts for the training rows, indexed [output][expected]. */
    var trainMatrix: array2<int>
    /** Counts for the testing rows, indexed [output][expected]. */
    var testMatrix: array2<int>
    /** Sum of the other two, filled in when the report finishes. */
    var allMatrix: array2<int>
    /** Empty until the first finish, then the testing, training and all
        matrices of that finish. */
    var matrixArray: seq<array2<int>>

    /** The three matrices are distinct square `nLabels` grids. */
    ghost predicate Valid()
      reads this
    {
      && trainMatrix.Length0 == trainMatrix.Length1 == nLabels
      && testMatrix.Length0 == testMatrix.Length1 == nLabels
      && allMatrix.Length0 == allMatrix.Length1 == nLabels
      && trainMatrix != testMatrix && trainMatrix != allMatrix && testMatrix != allMatrix
    }

    /** `matrixArray` holds the current matrices. */
    ghost predicate Finished()
      reads this
    {
      matrixArray == [testMatrix, trainMatrix, allMatrix]
    }

    /** Before the first report the matrices are empty. */
    constructor(isTrained: string -> bool, computeBest: (Batch, int) -> int)
      ensures Valid() && nLabels == 0 && matrixArray == []
      ensures this.isTrained == isTrained && this.computeBest == computeBest
    {
      this.isTrained := isTrained;
      this.computeBest := computeBest;
      nLabels := 0;
      trainMatrix := new int[0, 0];
      testMatrix := new int[0, 0];
      allMatrix := new int[0, 0];
      matrixArray := [];
    }

    /** Every row's best expected and best output label is a label index. */
    predicate BestInRange(metaData: seq<string>, expected: Batch, output: Batch)
      reads this
    {
      forall r :: 0 <= r < |metaData| ==>
        0 <= computeBest(expected, r) < nLabels && 0 <= computeBest(output, r) < nLabels
    }

    /** The cells [output][expected] picked by the first `n` rows whose id is
        (when `trained`) or is not (otherwise) in the training set. */
    function Picks(metaData: seq<string>, expected: Batch, output: Batch, trained: bool, n: nat): multiset<(int, int)>
      requires n <= |metaData|
      decreases n
    {
      if n == 0 then multiset{}
      else
        Picks(metaData, expected, output, trained, n - 1)
          + (if isTrained(metaData[n - 1]) == trained
             then multiset{(computeBest(output, n - 1), computeBest(expected, n - 1))}
             else multiset{})
    }

    /** The number of the first `n` rows that pick cell [o][e] on the
        training side (when `trained`) or on the testing side. */
    function Hits(metaData: seq<string>, expected: Batch, output: Batch, trained: bool, o: int, e: int, n: nat): nat
      requires n <= |metaData|
      decreases n
    {
      if n == 0 then 0
      else
        Hits(metaData, expected, output, trained, o, e, n - 1)
          + (if isTrained(metaData[n - 1]) == trained && computeBest(output, n - 1) == o && computeBest(expected, n - 1) == e
             then 1 else 0)
    }

    /** `Hits` counts the multiplicities of `Picks`. */
    lemma {:induction false} HitsArePicks(metaData: seq<string>, expected: Batch, output: Batch, trained: bool, o: int, e: int, n: nat)
      requires n <= |metaData|
      ensures Hits(metaData, expected, output, trained, o, e, n) == Picks(metaData, expected, output, trained, n)[(o, e)]
      decreases n
    {
      if n > 0 {
        HitsArePicks(metaData, expected, output, trained, o, e, n - 1);
      }
    }

    /** Each row is picked exactly once, by the training or by the testing side. */
    lemma {:induction false} PicksPartition(metaData: seq<string>, expected: Batch, output: Batch, n: nat)
      requires n <= |metaData|
      ensures |Picks(metaData, expected, output, true, n)| + |Picks(metaData, expected, output, false, n)| == n
      decreases n
    {
      if n > 0 {
        PicksPartition(metaData, expected, output, n - 1);
      }
    }

    /** The picked cells lie on the `nLabels` grid. */
    lemma {:induction false} PicksInRange(metaData: seq<string>, expected: Batch, output: Batch, trained: bool, n: nat)
      requires n <= |metaData| && BestInRange(metaData, expected, output)
      ensures forall x :: x in Picks(metaData, expected, output, trained, n) ==> 0 <= x.0 < nLabels && 0 <= x.1 < nLabels
      decreases n
    {
      if n > 0 {
        PicksInRange(metaData, expected, output, trained, n - 1);
      }
    }

    /** Starts a report: `nLabels` becomes the number of labels and all three
        matrices are new and zero. */
    method StartReport(metaCols: seq<string>, labels: seq<string>)
      modifies this
      ensures Valid()
      ensures nLabels == |labels|
      ensures fresh(trainMatrix) && fresh(testMatrix) && fresh(allMatrix)
      ensures forall o, e :: 0 <= o < nLabels && 0 <= e < nLabels ==>
        trainMatrix[o, e] == 0 && testMatrix[o, e] == 0 && allMatrix[o, e] == 0
      ensures matrixArray == old(matrixArray)
    {
      nLabels := |labels|;
      // Java zero-fills new int arrays; the source then fills them with 0 again.
      trainMatrix := new int[nLabels, nLabels]((o, e) => 0);
      testMatrix := new int[nLabels, nLabels]((o, e) => 0);
      allMatrix := new int[nLabels, nLabels]((o, e) => 0);
    }

    /** Counts a batch: row `r` adds one to cell [best output][best expected]
        of the training matrix when `isTrained` holds for its id, and of the
        testing matrix otherwise. Nothing else changes. */
    method ReportOutput(metaData: seq<string>, expected: Batch, output: Batch)
      requires Valid() && BestInRange(metaData, expected, output)
      modifies trainMatrix, testMatrix
      ensures forall o, e :: 0 <= o < nLabels && 0 <= e < nLabels ==>
        && trainMatrix[o, e] == old(trainMatrix[o, e]) + Hits(metaData, expected, output, true, o, e, |metaData|)
        && testMatrix[o, e] == old(testMatrix[o, e]) + Hits(metaData, expected, output, false, o, e, |metaData|)
    {
      for r := 0 to |metaData|
        invariant forall o, e :: 0 <= o < nLabels && 0 <= e < nLabels ==>
          && trainMatrix[o, e] == old(trainMatrix[o, e]) + Hits(metaData, expected, output, true, o, e, r)
          && testMatrix[o, e] == old(testMatrix[o, e]) + Hits(metaData, expected, output, false, o, e, r)
      {
        var id := metaData[r];
        var e := computeBest(expected, r);
        var o := computeBest(output, r);
        if isTrained(id) {
          trainMatrix[o, e] := trainMatrix[o, e] + 1;
        } else {
          testMatrix[o, e] := testMatrix[o, e] + 1;
        }
      }
    }

    /** Counting a batch as `ReportOutput` does, the training and testing
        matrices together grow by exactly the number of rows. */
    lemma ReportTotal(metaData: seq<string>, expected: Batch, output: Batch,
                      train0: seq<seq<int>>, train1: seq<seq<int>>, test0: seq<seq<int>>, test1: seq<seq<int>>)
      requires BestInRange(metaData, expected, output)
      requires |train0| == |train1| == |test0| == |test1| == nLabels
      requires Rect(train0, nLabels) && Rect(train1, nLabels) && Rect(test0, nLabels) && Rect(test1, nLabels)
      requires forall o, e :: 0 <= o < nLabels && 0 <= e < nLabels ==>
        && train1[o][e] == train0[o][e] + Hits(metaData, expected, output, true, o, e, |metaData|)
        && test1[o][e] == test0[o][e] + Hits(metaData, expected, output, false, o, e, |metaData|)
      ensures GridSum(train1) + GridSum(test1) == GridSum(train0) + GridSum(test0) + |metaData|
    {
      var n := |metaData|;
      SideTotal(metaData, expected, output, true, train0, train1);
      SideTotal(metaData, expected, output, false, test0, test1);
      PicksPartition(metaData, expected, output, n);
    }

    /** One side of `ReportTotal`: a matrix that gained the hits of one side
        grew by the number of rows on that side. */
    lemma SideTotal(metaData: seq<string>, expected: Batch, output: Batch, trained: bool,
                    before: seq<seq<int>>, after: seq<seq<int>>)
      requires BestInRange(metaData, expected, output)
      requires |before| == |after| == nLabels && Rect(before, nLabels) && Rect(after, nLabels)
      requires forall o, e :: 0 <= o < nLabels && 0 <= e < nLabels ==>
        after[o][e] == before[o][e] + Hits(metaData, expected, output, trained, o, e, |metaData|)
      ensures GridSum(after) == GridSum(before) + |Picks(metaData, expected, output, trained, |metaData|)|
    {
      var n := |metaData|;
      var picks := Picks(metaData, expected, output, trained, n);
      forall o, e | 0 <= o < nLabels && 0 <= e < nLabels
        ensures after[o][e] == before[o][e] + picks[(o, e)]
      {
        HitsArePicks(metaData, expected, output, trained, o, e, n);
      }
      PicksInRange(metaData, expected, output, trained, n);
      CountedSum(before, after, picks, nLabels);
    }

    /** Finishes a report: every cell of the all-matrix becomes the sum of
        the testing and training cells, and `matrixArray` holds the testing,
        training and all matrices in that order. */
    method FinishReport()
      requires Valid()
      modifies this, allMatrix
      ensures Valid() && Finished()
      ensures nLabels == old(nLabels)
      ensures trainMatrix == old(trainMatrix) && testMatrix == old(testMatrix) && allMatrix == old(allMatrix)
      ensures forall o, e :: 0 <= o < nLabels && 0 <= e < nLabels ==>
        allMatrix[o, e] == testMatrix[o, e] + trainMatrix[o, e]
      ensures GridSum(Square(allMatrix, nLabels))
           == GridSum(Square(testMatrix, nLabels)) + GridSum(Square(trainMatrix, nLabels))
    {
      for o := 0 to nLabels
        invariant unchanged(this)
        invariant forall p, e :: 0 <= p < o && 0 <= e < nLabels ==>
          allMatrix[p, e] == testMatrix[p, e] + trainMatrix[p, e]
      {
        for e := 0 to nLabels
          invariant unchanged(this)
          invariant forall p, f :: 0 <= p < o && 0 <= f < nLabels ==>
            allMatrix[p, f] == testMatrix[p, f] + trainMatrix[p, f]
          invariant forall f :: 0 <= f < e ==> allMatrix[o, f] == testMatrix[o, f] + trainMatrix[o, f]
        {
          allMatrix[o, e] := testMatrix[o, e] + trainMatrix[o, e];
        }
      }
      matrixArray := [testMatrix, trainMatrix, allMatrix];
      GridAdd(Square(testMatrix, nLabels), Square(trainMatrix, nLabels), Square(allMatrix, nLabels));
    }

    /** The count of cell [o][e] of matrix `table` (0 testing, 1 training,
        2 both) as of the last finish. */
    method GetCount(table: nat, o: nat, e: nat) returns (c: int)
      requires table < |matrixArray|
      requires o < matrixArray[table].Length0 && e < matrixArray[table].Length1
      ensures c == matrixArray[table][o, e]
    {
      c := matrixArray[table][o, e];
    }

    /** The testing count of cell [o][e]. */
    method GetTestCount(o: nat, e: nat) returns (c: int)
      requires o < testMatrix.Length0 && e < testMatrix.Length1
      ensures c == testMatrix[o, e]
    {
      c := testMatrix[o, e];
    }

    /** The training count of cell [o][e], as written: it reads the testing
        matrix. */
    method GetTrainCount(o: nat, e: nat) returns (c: int)
      requires o < testMatrix.Length0 && e < testMatrix.Length1
      ensures c == testMatrix[o, e]
    {
      c := testMatrix[o, e];
    }

    /** The training count of cell [o][e], as documented. */
    method TrainCount(o: nat, e: nat) returns (c: int)
      requires o < trainMatrix.Length0 && e < trainMatrix.Length1
      ensures c == trainMatrix[o, e]
      ensures Valid() && Finished() ==> c == matrixArray[TrainType][o, e]
    {
      c := trainMatrix[o, e];
    }
  }

  /** One label, one training row predicted correctly: the training count the
      as-written accessor shows is 0 while the training matrix holds 1, which
      the corrected accessor returns. */
  method TrainCountMismatch() returns (shown: int, actual: int, corrected: int)
    ensures shown == 0 && actual == 1 && corrected == actual
  {
    var c := new Confusion(id => true, (b, r) => 0);
    c.StartReport([], ["only"]);
    c.ReportOutput(["row"], [[1.0]], [[1.0]]);
    assert c.Hits(["row"], [[1.0]], [[1.0]], true, 0, 0, 1) == 1;
    assert c.Hits(["row"], [[1.0]], [[1.0]], false, 0, 0, 1) == 0;
    c.FinishReport();
    shown := c.GetTrainCount(0, 0);
    actual := c.GetCount(TrainType, 0, 0);
    corrected := c.TrainCount(0, 0);
  }
}
