/**
  The records both sides of the pipeline share: one row of a model
  evaluation table, a table as the host side reads it back, and the blobs of
  the storage bucket.
 */
module Artifacts {

  /** One row of an evaluation table, with the columns
      Class, Precision, Recall, F1-Score, Support, Accuracy, algorithm and
      timestamp. Metric values are exact reals: for finite operands
      `prod - stage > 0` holds exactly when `prod > stage`. */
  datatype EvalRecord = EvalRecord(
    cls: int,
    precision: real,
    recall: real,
    f1Score: real,
    support: int,
    accuracy: real,
    algorithm: string,
    timestamp: string)

  /** A table as a data frame: `NoColumns` is the column-less `pd.DataFrame()`
      returned when nothing was loaded; `Rows` is a table read back from its
      CSV, whose row labels are the positions 0, 1, ... */
  datatype Frame = NoColumns | Rows(rows: seq<EvalRecord>)

  /** The class labels of the training run, in table order. */
  const Labels: seq<int> := [0, 1]

  /** The label of the positive (churn) class. */
  const PositiveClass: int := 1

  /** The numeric columns; subtracting any other column fails. */
  const NumericColumns: seq<string> := ["Class", "Precision", "Recall", "F1-Score", "Support", "Accuracy"]

  predicate IsNumericColumn(name: string)
  {
    name in NumericColumns
  }

  /** The value of a numeric column of a record. */
  function Column(r: EvalRecord, name: string): real
    requires IsNumericColumn(name)
  {
    match name
    case "Class" => r.cls as real
    case "Precision" => r.precision
    case "Recall" => r.recall
    case "F1-Score" => r.f1Score
    case "Support" => r.support as real
    case _ => r.accuracy
  }

  /** The shape of a table written by a training run: one row per label in
      the order of `Labels`, with the overall accuracy, the algorithm and the
      timestamp repeated on every row. */
  ghost predicate TrainedShape(rows: seq<EvalRecord>)
  {
    && |rows| == |Labels|
    && (forall i :: 0 <= i < |rows| ==> rows[i].cls == Labels[i])
    && (forall i :: 0 <= i < |rows| ==> rows[i].accuracy == rows[0].accuracy)
    && (forall i :: 0 <= i < |rows| ==> rows[i].algorithm == rows[0].algorithm)
    && (forall i :: 0 <= i < |rows| ==> rows[i].timestamp == rows[0].timestamp)
  }

  type Bytes = seq<bv8>

  /** A stored object: when the store created it, and its bytes. */
  datatype Blob = Blob(timeCreated: int, content: Bytes)

  /** One entry of a bucket listing: a blob's full name and creation time. */
  datatype BlobInfo = BlobInfo(name: string, timeCreated: int)
}
