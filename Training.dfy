/**
  The producer side of the artifacts (train_model.py): which classifier a
  training run builds, the names under which it stores the fitted model and
  its evaluation table, and the layout of that table. Fitting, prediction and
  the metric computation are library calls; the metric values are inputs.
 */
module Training {
  import opened Wrappers
  import opened StringOps
  import opened Artifacts

  /** The only algorithm a training run accepts. */
  const LogisticRegressionName: string := "logistic_regression"

  /** The seed the classifier is built with. */
  const RandomState: int := 7

  /** The classifier configuration a run fits. */
  datatype Classifier = LogisticRegression(randomState: int)

  /** A creation time written `YYYYMMDDHHMMSS`: fourteen decimal digits. */
  predicate IsTimestamp(ts: string)
  {
    |ts| == 14 && forall i :: 0 <= i < |ts| ==> '0' <= ts[i] <= '9'
  }

  /** The classifier for an algorithm name; any other name is rejected with
      a `ValueError` that names it. */
  function GetModel(algorithm: string): (r: Result<Classifier, string>)
    ensures r.Success? <==> algorithm == LogisticRegressionName
    ensures r.Success? ==> r.value.randomState == RandomState
    ensures r.Failure? ==> r.error == "Unknown algorithm: " + algorithm
  {
    if algorithm == LogisticRegressionName then Success(LogisticRegression(RandomState))
    else Failure("Unknown algorithm: " + algorithm)
  }

  /** The file name of a fitted model. */
  function ModelFileName(algorithm: string, timestamp: string): string
  {
    "model_" + algorithm + "_" + timestamp + ".joblib"
  }

  /** The blob name a fitted model is uploaded to: the file name under the
      staging folder. A listing of that folder includes it, and it is never
      taken for an evaluation table. */
  function ModelBlobName(folder: string, algorithm: string, timestamp: string): (r: string)
    ensures StartsWith(r, folder)
    ensures EndsWith(r, ".joblib") && !EndsWith(r, ".csv")
  {
    var r := folder + ModelFileName(algorithm, timestamp);
    assert r[..|folder|] == folder;
    assert r[|r| - 7..] == ".joblib";
    assert r[|r| - 4..] == "blib";
    r
  }

  /** The file name of an evaluation table. */
  function EvaluationFileName(algorithm: string, timestamp: string): string
  {
    "model_evaluation_" + algorithm + "_" + timestamp + ".csv"
  }

  /** The blob name an evaluation table is written to, under the same
      staging folder as its model. A listing of that folder includes it, and
      it counts as an evaluation table. */
  function EvaluationBlobName(folder: string, algorithm: string, timestamp: string): (r: string)
    ensures StartsWith(r, folder)
    ensures EndsWith(r, ".csv")
  {
    var r := folder + EvaluationFileName(algorithm, timestamp);
    assert r[..|folder|] == folder;
    assert r[|r| - 4..] == ".csv";
    r
  }

  /** The evaluation table of a run: one row per label of `Labels`, built
      from the per-label precision, recall, F1 score and support and the
      overall accuracy of the run. It has the trained layout, and its
      accuracy, algorithm and timestamp are the run's. */
  function EvaluationTable(
    algorithm: string, timestamp: string,
    precision: seq<real>, recall: seq<real>, f1Score: seq<real>, support: seq<int>,
    accuracy: real): (rows: seq<EvalRecord>)
    requires |precision| == |recall| == |f1Score| == |support| == |Labels|
    ensures TrainedShape(rows)
    ensures rows[0].algorithm == algorithm && rows[0].timestamp == timestamp && rows[0].accuracy == accuracy
  {
    seq(|Labels|, i requires 0 <= i < |Labels| =>
      EvalRecord(Labels[i], precision[i], recall[i], f1Score[i], support[i], accuracy, algorithm, timestamp))
  }

  /** Row `i` of a run's table holds the metrics of label `i`. */
  lemma EvaluationTableShape(
    algorithm: string, timestamp: string,
    precision: seq<real>, recall: seq<real>, f1Score: seq<real>, support: seq<int>,
    accuracy: real)
    requires |precision| == |recall| == |f1Score| == |support| == |Labels|
    ensures var rows := EvaluationTable(algorithm, timestamp, precision, recall, f1Score, support, accuracy);
      forall i :: 0 <= i < |rows| ==>
           rows[i].precision == precision[i] && rows[i].recall == recall[i]
           && rows[i].f1Score == f1Score[i] && rows[i].support == support[i]
  {
  }

  /** In a table of the trained shape the positive class has exactly one
      row, the second. */
  lemma PositiveRowOfTrainedTable(rows: seq<EvalRecord>, i: int)
    requires TrainedShape(rows)
    requires 0 <= i < |rows|
    ensures rows[i].cls == PositiveClass <==> i == 1
  {
  }
}
