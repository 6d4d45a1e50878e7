/** The scatter-plot report of a regression model: a map from record id to
    the prediction of the last row reported for it, and per-label series of
    the training or the testing ids whose x and y are the expected and the
    predicted value. */
module RegressionValidationScatter {

  /** A stored prediction: the row index into the reported batches and the
      batches themselves, by reference. */
  datatype Prediction = Prediction(row: nat, expectBatch: array2<real>, outputBatch: array2<real>)

  /** The batches of `p` have a cell for label `labelIdx` in its row. */
  predicate Readable(p: Prediction, labelIdx: nat) {
    p.row < p.expectBatch.Length0 && labelIdx < p.expectBatch.Length1
    && p.row < p.outputBatch.Length0 && labelIdx < p.outputBatch.Length1
  }

  /** The expected value of label `labelIdx`, read from the batch now. */
  function GetExpect(p: Prediction, labelIdx: nat): real
    requires Readable(p, labelIdx)
    reads p.expectBatch
  {
    p.expectBatch[p.row, labelIdx]
  }

  /** The predicted value of label `labelIdx`, read from the batch now. */
  function GetOutput(p: Prediction, labelIdx: nat): real
    requires Readable(p, labelIdx)
    reads p.outputBatch
  {
    p.outputBatch[p.row, labelIdx]
  }

  /** No id occurs twice in `ids`. */
  predicate Distinct(ids: seq<string>) {
    forall i, j :: 0 <= i < j < |ids| ==> ids[i] != ids[j]
  }

  /** The ids of the first `n + 1` rows are those of the first `n` rows and
      the id of row `n`. */
  lemma IdsStep(getId: string -> string, metaData: seq<string>, n: nat)
    requires n < |metaData|
    ensures (set r | 0 <= r < n + 1 :: getId(metaData[r]))
         == (set r | 0 <= r < n :: getId(metaData[r])) + {getId(metaData[n])}
  {
    var before := set r | 0 <= r < n :: getId(metaData[r]);
    forall k | k in set r | 0 <= r < n + 1 :: getId(metaData[r])
      ensures k in before + {getId(metaData[n])}
    {
      var r :| 0 <= r < n + 1 && k == getId(metaData[r]);
      if r < n { assert k in before; }
    }
  }

  class Scatter {
    /** The record id of a metadata string (supplied by the report base class). */
    const getId: string -> string
    /** Whether a record id belongs to the training set (supplied by the report base class). */
    const isTrained: string -> bool
    var predictionMap: map<string, Prediction>

    constructor(getId: string -> string, isTrained: string -> bool)
      ensures this.getId == getId && this.isTrained == isTrained
      ensures predictionMap == map[]
    {
      this.getId := getId;
      this.isTrained := isTrained;
      predictionMap := map[];
    }

    /** `m` after putting the first `n` rows of a batch, in row order: each
        row's id maps to that row of the batch. */
    function Put(m: map<string, Prediction>, metaData: seq<string>, expected: array2<real>, output: array2<real>, n: nat)
      : map<string, Prediction>
      requires n <= |metaData|
      decreases n
    {
      if n == 0 then m
      else Put(m, metaData, expected, output, n - 1)[getId(metaData[n - 1]) := Prediction(n - 1, expected, output)]
    }

    /** After the first `n` rows the keys are the old keys and the ids of those rows. */
    lemma {:induction false} PutKeys(m: map<string, Prediction>, metaData: seq<string>, expected: array2<real>, output: array2<real>, n: nat)
      requires n <= |metaData|
      ensures Put(m, metaData, expected, output, n).Keys
           == m.Keys + set r | 0 <= r < n :: getId(metaData[r])
      decreases n
    {
      if n > 0 {
        PutKeys(m, metaData, expected, output, n - 1);
        IdsStep(getId, metaData, n - 1);
      }
    }

    /** Last write wins: when row `r` is the last of the first `n` rows with
        id `k`, `k` maps to row `r`. */
    lemma {:induction false} PutLast(m: map<string, Prediction>, metaData: seq<string>, expected: array2<real>, output: array2<real>,
                                     n: nat, r: nat)
      requires r < n <= |metaData|
      requires forall q :: r < q < n ==> getId(metaData[q]) != getId(metaData[r])
      ensures getId(metaData[r]) in Put(m, metaData, expected, output, n)
      ensures Put(m, metaData, expected, output, n)[getId(metaData[r])] == Prediction(r, expected, output)
      decreases n
    {
      if r < n - 1 {
        PutLast(m, metaData, expected, output, n - 1, r);
      }
    }

    /** Ids of none of the first `n` rows keep their old entry. */
    lemma {:induction false} PutOthers(m: map<string, Prediction>, metaData: seq<string>, expected: array2<real>, output: array2<real>,
                                       n: nat, k: string)
      requires n <= |metaData|
      requires forall q :: 0 <= q < n ==> getId(metaData[q]) != k
      ensures k in Put(m, metaData, expected, output, n) <==> k in m
      ensures k in m ==> Put(m, metaData, expected, output, n)[k] == m[k]
      decreases n
    {
      if n > 0 {
        PutOthers(m, metaData, expected, output, n - 1, k);
      }
    }

    /** Starts a report with an empty map. */
    method StartReport(metaCols: seq<string>, labels: seq<string>)
      modifies this
      ensures predictionMap == map[]
    {
      predictionMap := map[];
    }

    /** Stores every row of a batch under its id, in row order, so that a
        later row with the same id replaces an earlier one. */
    method ReportOutput(metaData: seq<string>, expected: array2<real>, output: array2<real>)
      modifies this
      ensures predictionMap == Put(old(predictionMap), metaData, expected, output, |metaData|)
    {
      for r := 0 to |metaData|
        invariant predictionMap == Put(old(predictionMap), metaData, expected, output, r)
      {
        var id := getId(metaData[r]);
        predictionMap := predictionMap[id := Prediction(r, expected, output)];
      }
    }

    /** Finishing the report changes nothing. */
    method FinishReport()
      ensures predictionMap == old(predictionMap)
    {
    }

    /** The stored ids of the training (when `training`) or the testing set. */
    function IdsOf(training: bool): set<string>
      reads this
    {
      set k | k in predictionMap && isTrained(k) == training
    }

    /** The training and the testing ids split the stored ids. */
    lemma IdsPartition()
      ensures IdsOf(true) * IdsOf(false) == {}
      ensures IdsOf(true) + IdsOf(false) == predictionMap.Keys
    {
    }
  }

  /** The data series for one label and one side (training or testing). */
  class Model {
    const scatter: Scatter
    const lblIdx: nat
    /** The ids of the series, in the map's iteration order. */
    const idList: seq<string>

    /** The ids stored in the scatter's map whose side is `training`, each
        once, in some order; label `labelIdx` plays no part in the choice. */
    constructor(scatter: Scatter, labelIdx: nat, training: bool)
      ensures this.scatter == scatter && lblIdx == labelIdx
      ensures Distinct(idList)
      ensures forall k :: k in idList <==> k in scatter.IdsOf(training)
    {
      this.scatter := scatter;
      lblIdx := labelIdx;
      var ids: seq<string> := [];
      var remaining := scatter.predictionMap.Keys;
      while remaining != {}
        invariant remaining <= scatter.predictionMap.Keys
        invariant Distinct(ids)
        invariant forall k :: k in ids ==> k !in remaining
        invariant forall k :: k in ids <==> k in scatter.IdsOf(training) && k !in remaining
        decreases |remaining|
      {
        var k :| k in remaining;
        if scatter.isTrained(k) == training {
          ids := ids + [k];
        }
        remaining := remaining - {k};
      }
      idList := ids;
    }

    /** The x value of an id: the expected value of the label in the row
        stored for it, read from the batch as it is now; 0.0 for an id that
        is not stored. */
    method GetX(data: string) returns (x: real)
      requires data in scatter.predictionMap ==> Readable(scatter.predictionMap[data], lblIdx)
      ensures x == if data in scatter.predictionMap then GetExpect(scatter.predictionMap[data], lblIdx) else 0.0
    {
      x := 0.0;
      if data in scatter.predictionMap {
        var prediction := scatter.predictionMap[data];
        x := GetExpect(prediction, lblIdx);
      }
    }

    /** The y value of an id: the predicted value of the label in the row
        stored for it, read from the batch as it is now; 0.0 for an id that
        is not stored. */
    method GetY(data: string) returns (y: real)
      requires data in scatter.predictionMap ==> Readable(scatter.predictionMap[data], lblIdx)
      ensures y == if data in scatter.predictionMap then GetOutput(scatter.predictionMap[data], lblIdx) else 0.0
    {
      y := 0.0;
      if data in scatter.predictionMap {
        var prediction := scatter.predictionMap[data];
        y := GetOutput(prediction, lblIdx);
      }
    }
  }

  /** The stored predictions alias the caller's batch: a batch reported with
      expected value 1.0 and then overwritten with 2.0 shows 2.0 as the x
      value of its record. */
  method AliasedBatch() returns (reported: real, shown: real)
    ensures reported == 1.0 && shown == 2.0
  {
    var s := new Scatter(meta => meta, id => true);
    var expected := new real[1, 1]((r, c) => 1.0);
    var output := new real[1, 1]((r, c) => 1.0);
    s.StartReport([], ["y"]);
    s.ReportOutput(["a"], expected, output);
    reported := expected[0, 0];
    expected[0, 0] := 2.0;
    var model := new Model(s, 0, true);
    shown := model.GetX("a");
  }

  /** A stored prediction holding copies of its row's values. */
  datatype Snapshot = Snapshot(expectValues: seq<real>, outputValues: seq<real>)

  /** Row `r` of `a`, copied. */
  function RowOf(a: array2<real>, r: nat): (v: seq<real>)
    requires r < a.Length0
    reads a
    ensures |v| == a.Length1 && forall c :: 0 <= c < a.Length1 ==> v[c] == a[r, c]
  {
    seq(a.Length1, c requires 0 <= c < a.Length1 reads a => a[r, c])
  }

  /** The scatter report with each row's values copied when it is reported. */
  class CopyingScatter {
    const getId: string -> string
    var predictionMap: map<string, Snapshot>

    constructor(getId: string -> string)
      ensures this.getId == getId && predictionMap == map[]
    {
      this.getId := getId;
      predictionMap := map[];
    }

    /** `m` after storing copies of the first `n` rows of a batch, in row
        order. */
    function Store(m: map<string, Snapshot>, metaData: seq<string>, expected: array2<real>, output: array2<real>, n: nat)
      : map<string, Snapshot>
      requires n <= |metaData| && n <= expected.Length0 && n <= output.Length0
      reads expected, output
      decreases n
    {
      if n == 0 then m
      else Store(m, metaData, expected, output, n - 1)[getId(metaData[n - 1]) := Snapshot(RowOf(expected, n - 1), RowOf(output, n - 1))]
    }

    lemma {:induction false} StoreKeys(m: map<string, Snapshot>, metaData: seq<string>, expected: array2<real>, output: array2<real>, n: nat)
      requires n <= |metaData| && n <= expected.Length0 && n <= output.Length0
      ensures Store(m, metaData, expected, output, n).Keys == m.Keys + set r | 0 <= r < n :: getId(metaData[r])
      decreases n
    {
      if n > 0 {
        StoreKeys(m, metaData, expected, output, n - 1);
        IdsStep(getId, metaData, n - 1);
      }
    }

    lemma {:induction false} StoreLast(m: map<string, Snapshot>, metaData: seq<string>, expected: array2<real>, output: array2<real>,
                                       n: nat, r: nat)
      requires r < n <= |metaData| && n <= expected.Length0 && n <= output.Length0
      requires forall q :: r < q < n ==> getId(metaData[q]) != getId(metaData[r])
      ensures getId(metaData[r]) in Store(m, metaData, expected, output, n)
      ensures Store(m, metaData, expected, output, n)[getId(metaData[r])] == Snapshot(RowOf(expected, r), RowOf(output, r))
      decreases n
    {
      if r < n - 1 {
        StoreLast(m, metaData, expected, output, n - 1, r);
      }
    }

    lemma {:induction false} StoreOthers(m: map<string, Snapshot>, metaData: seq<string>, expected: array2<real>, output: array2<real>,
                                         n: nat, k: string)
      requires n <= |metaData| && n <= expected.Length0 && n <= output.Length0
      requires forall q :: 0 <= q < n ==> getId(metaData[q]) != k
      ensures k in Store(m, metaData, expected, output, n) <==> k in m
      ensures k in m ==> Store(m, metaData, expected, output, n)[k] == m[k]
      decreases n
    {
      if n > 0 {
        StoreOthers(m, metaData, expected, output, n - 1, k);
      }
    }

    /** Stores copies of every row of a batch under its id, later rows
        replacing earlier ones: the keys are the old keys and the batch ids,
        every id of the batch maps to the values of its last row as they are
        at report time, and every other entry is kept. */
    method ReportOutput(metaData: seq<string>, expected: array2<real>, output: array2<real>)
      requires |metaData| <= expected.Length0 && |metaData| <= output.Length0
      modifies this
      ensures predictionMap == Store(old(predictionMap), metaData, expected, output, |metaData|)
      ensures predictionMap.Keys == old(predictionMap).Keys + set r | 0 <= r < |metaData| :: getId(metaData[r])
      ensures forall r :: 0 <= r < |metaData| ==> getId(metaData[r]) in predictionMap
      ensures forall r :: 0 <= r < |metaData| && (forall q :: r < q < |metaData| ==> getId(metaData[q]) != getId(metaData[r])) ==>
        predictionMap[getId(metaData[r])] == Snapshot(RowOf(expected, r), RowOf(output, r))
      ensures forall k :: k in old(predictionMap) && (forall q :: 0 <= q < |metaData| ==> getId(metaData[q]) != k) ==>
        k in predictionMap && predictionMap[k] == old(predictionMap[k])
    {
      for r := 0 to |metaData|
        invariant predictionMap == Store(old(predictionMap), metaData, expected, output, r)
      {
        var id := getId(metaData[r]);
        predictionMap := predictionMap[id := Snapshot(RowOf(expected, r), RowOf(output, r))];
      }
      StoreKeys(old(predictionMap), metaData, expected, output, |metaData|);
      forall r | 0 <= r < |metaData| && (forall q :: r < q < |metaData| ==> getId(metaData[q]) != getId(metaData[r]))
        ensures predictionMap[getId(metaData[r])] == Snapshot(RowOf(expected, r), RowOf(output, r))
      {
        StoreLast(old(predictionMap), metaData, expected, output, |metaData|, r);
      }
      forall k | k in old(predictionMap) && (forall q :: 0 <= q < |metaData| ==> getId(metaData[q]) != k)
        ensures k in predictionMap && predictionMap[k] == old(predictionMap[k])
      {
        StoreOthers(old(predictionMap), metaData, expected, output, |metaData|, k);
      }
    }

    /** The x value of an id: the copied expected value, 0.0 when the id is
        not stored. It reads no batch, so later changes to a batch do not
        change it. */
    function GetX(data: string, labelIdx: nat): real
      requires data in predictionMap ==> labelIdx < |predictionMap[data].expectValues|
      reads this
    {
      if data in predictionMap then predictionMap[data].expectValues[labelIdx] else 0.0
    }
  }

  /** The same steps as `AliasedBatch` with the copying report: the record
      shows the value reported. */
  method CopiedBatch() returns (reported: real, shown: real)
    ensures reported == 1.0 && shown == reported
  {
    var s := new CopyingScatter(meta => meta);
    var expected := new real[1, 1]((r, c) => 1.0);
    var output := new real[1, 1]((r, c) => 1.0);
    s.ReportOutput(["a"], expected, output);
    assert s.getId(["a"][0]) == "a";
    assert s.predictionMap["a"].expectValues == RowOf(expected, 0);
    reported := expected[0, 0];
    expected[0, 0] := 2.0;
    shown := s.GetX("a", 0);
  }
}
