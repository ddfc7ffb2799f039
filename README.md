# Model promotion for the customer-churn pipeline

This project is a Dafny model of the model-promotion step of the
customer-churn training pipeline, together with the naming side of training
that promotion depends on.

- **Training** (`train_model.py`) picks a classifier by algorithm name. It
  stores the fitted model as `model_<algorithm>_<timestamp>.joblib` and the
  evaluation table as `model_evaluation_<algorithm>_<timestamp>.csv`, both
  under a staging folder. The evaluation table has one row per label `0`, `1`.
- **Hosting** (`host_model.py`) has three steps:
  - It loads the most recent evaluation CSV of a folder.
  - It compares a production table with a staging table on the
    positive-class row, one metric at a time, and stops at the first metric
    that fails.
  - It promotes a staged model. It derives the model name from the
    evaluation name, derives production names by replacing every `stage`
    with `prod`, and copies the model and then the evaluation inside one
    bucket.

Modules:

- `Wrappers`: `Option` and `Result`.
- `StringOps`: Python's `str.endswith` and `str.replace`, with their
  properties.
- `Artifacts`: evaluation records, frames and blobs.
- `Training`: the producer side.
- `Hosting`: the loader, the comparator and the `Bucket` class with the
  promotion method.
- `Naming`: how the training names and the hosting derivations fit together.

The comparison follows pandas index alignment. After filtering to
`Class == 1`, `prod[m] - stage[m]` has a value only at row positions where
both tables hold the positive class. "Not empty after `> 0`" therefore means
that some such position has a strictly larger production value.

## Model

| member | source | states |
|---|---|---|
| Hosting.LatestCsv | host_model.py:27-33 | the result is `None` exactly when no listed name ends in `.csv`; otherwise it is the CSV entry created last, and among entries with that time the first one listed (strict `>`) |
| Hosting.LatestCsvUnique | host_model.py:29-33 | at most one entry satisfies the selection rule, so the loader's choice is determined by the listing |
| Hosting.GetModelEvaluationMetrics | host_model.py:4-45 | an empty project, bucket or folder gives the early bare-frame return; a listing that raises gives failure; no CSV gives success without a table; otherwise the latest CSV is read, and a read that raises gives failure |
| Hosting.CompareRows | host_model.py:113-120 | the comparison over the metrics in order: a rejection names a listed numeric metric on which production does not improve; an error comes from a listed metric that is no numeric column |
| Hosting.Compare | host_model.py:107-123 | the comparison of two frames: only frames with columns can give "better" or a rejection, and a rejection names a listed numeric metric on which production does not improve |
| Hosting.CompareModelPerformances | host_model.py:101-127 | promotes exactly when the pure `Compare` gives "better", and returns the literal message of the outcome, including the metric named on rejection |
| Hosting.CompareRowsBetterIff | host_model.py:113-123 | the result is "better" if and only if every listed metric is a numeric column on which production strictly beats staging on the positive class |
| Hosting.CompareBetterIff | host_model.py:107-123 | the same for whole frames; a frame without columns never promotes |
| Hosting.CompareRowsNotBetterIff | host_model.py:113-120 | the result names metric `m` if and only if `m` is the first listed metric on which production is not strictly better, and every earlier metric passed |
| Hosting.CompareRowsStopsAtFirstFailure | host_model.py:113-120 | once a prefix of the metrics has decided against promotion, metrics appended after it do not change the outcome |
| Hosting.NeverBetterThanItself | host_model.py:114-116 | with at least one metric, a table compared with itself never promotes: equal values reject |
| Hosting.ImprovesOnTrainedTables | host_model.py:109-116 | on tables of the trained layout, a metric improves exactly when production's positive-class value is strictly greater than staging's |
| Hosting.DefaultComparisonOnTrainedTables | host_model.py:104-123 | with the default metrics on trained tables, production must have strictly higher accuracy and then strictly higher F1 score; accuracy is checked first and named when it fails |
| Hosting.MissingPositiveRowRejects | host_model.py:109-120 | a production table with no positive-class row is rejected on the first numeric metric, not reported as an error |
| Hosting.StageModelNameUnchanged | host_model.py:74 | deriving the model name leaves a name that contains neither `_evaluation_` nor `.csv` unchanged |
| Hosting.ProdNameRemovesStageToken | host_model.py:78-79 | a production name contains no `stage`, so deriving it again changes nothing |
| Hosting.ProdNameUnchanged | host_model.py:78-79 | a name without `stage` is its own production name |
| Hosting.Bucket.CopyBlob | host_model.py:87-90 | a copy succeeds exactly when the source exists and the store does not fault on it; the destination then holds the source content with a new creation time, and nothing else changes; a failed copy changes nothing |
| Hosting.Bucket.MoveModelFromStageToProd | host_model.py:48-98 | missing configuration returns early and leaves the bucket alone; otherwise the model copy runs before the evaluation copy, and the outcome and final bucket are stated for each step that can fail; no blob is ever removed; on success the result carries the success message and the production model name, both staged blobs exist, and they are unchanged when both names hold `stage` |
| Training.GetModel | train_model.py:59-64 | a classifier with random state 7 is returned exactly for `logistic_regression`; any other name fails with `Unknown algorithm: <name>` |
| Training.ModelBlobName | train_model.py:81-92 | the model blob lies under the staging folder and ends in `.joblib`, so the loader never takes it for an evaluation table |
| Training.EvaluationBlobName | train_model.py:117-118 | the evaluation blob lies under the staging folder and ends in `.csv`, so the loader considers it |
| Training.EvaluationTable | train_model.py:136-145 | the table has one row per label in the order `[0, 1]`; accuracy, algorithm and timestamp are the same on every row and are the run's |
| Training.EvaluationTableShape | train_model.py:129-145 | row `i` carries label `i`'s precision, recall, F1 score and support |
| Training.PositiveRowOfTrainedTable | train_model.py:129-137 | in a table of the trained layout, the positive class is in exactly one row, the second |
| Naming.StageModelNameRoundTrip | host_model.py:74 | deriving the model name from a run's evaluation blob name gives that run's model blob name, provided the folder has no `_evaluation_` or `.csv`, the joined fields create no second marker, the algorithm has no `.csv`, and the timestamp has no `.` |
| Naming.TrainedArtifactsRoundTrip | train_model.py:81-118 | for the algorithm training accepts and a 14-digit timestamp, the round trip needs only a folder without `_evaluation_` and `.csv` |
| Naming.PromotedModelName | host_model.py:79 | the production model name of a trained run is the run's model name under the production form of the folder |
| Naming.PromotedEvaluationName | host_model.py:78 | the production evaluation name of a trained run is the run's evaluation name under the production form of the folder |
| Naming.EvaluationFileHasNoStageToken | train_model.py:117 | the file part of a trained run's evaluation name contains no `stage`, so only the folder is renamed |
| Naming.PromotedRoundTrip | host_model.py:74-79 | renaming to production commutes with the model-name derivation: the production model name is also what the derivation gives for the production evaluation name |
| Naming.StagedNamesHoldStageToken | host_model.py:78-87 | under a staging folder that contains `stage`, both staged names of a trained run contain it, so their production names differ from them |
| StringOps.ReplaceRemovesAll | host_model.py:78-79 | when the replacement shares no character with the pattern, no occurrence of the pattern is left, as with `stage` to `prod` |
| StringOps.ReplaceIdempotent | host_model.py:78-79 | under that condition, replacing twice gives the same result as replacing once |

## Left out

- The storage client is replaced by values and is not modelled. The listing is a parameter (`None` when listing raises). Reading a CSV is a lookup in a map of parsed tables, and a missing name means the read raised. The bucket is a map of blobs in the `Bucket` class.
- Hosting.Bucket.CopyBlob: store failures are a `faults` set of source names. Failures that depend on the destination, on permissions or on the network are not distinguished.
- Hosting.GetModelEvaluationMetrics: the three-value returns are folded into `LoadOutcome`. The early return on missing configuration is a bare empty frame in the source and is kept as its own case. The text of exceptions is not modelled.
- Hosting.CompareModelPerformances: the failure message omits the exception text. The source returns a three-value tuple on that path, and only its flag and message prefix are kept.
- Hosting.Bucket.MoveModelFromStageToProd: the failure message with its exception text is not modelled, only the returned staged model name. The success message is carried in `Moved` as `MovedMessage`. `prod_model_folder_path` is only checked for being non-empty, as in the source; production names come from replacing `stage` with `prod`. A name without `stage` is therefore copied onto itself.
- Console logging (`print`) and the `gs://` path strings are left out.
- Metric values are `real`. Floating-point rounding, NaN and infinity are not modelled, and the metric computation (`precision_recall_fscore_support`, `accuracy_score`) is replaced by inputs to `Training.EvaluationTable`.
- Frames are sequences of records with a fixed set of numeric columns. `read_csv` parses the `timestamp` column as an integer and `algorithm` as text. Comparing on either, or on a column that does not exist, is modelled as the error path.
- Row alignment is by position, which matches the default index that `read_csv` gives. Frames with other indexes are not modelled.
- Model fitting, preprocessing, data loading, serving and the web route are not part of this model. Neither is the orchestration that calls these steps in sequence.
- Concurrent promotions are not modelled. Neither is the window between the two copies: a failure after the model copy leaves the production model in place, as the source does, and no rollback is modelled.
- Naming.StageModelNameRoundTrip: it needs more than a folder, algorithm and timestamp free of `_evaluation_` and `.csv`. An algorithm ending in `_evaluation`, or a timestamp starting with `evaluation_`, creates a second marker across the joining `_`. The lemma therefore requires the whole joined tail to be free of the marker. It also requires the algorithm to hold no `.csv` and the timestamp to hold no `.`, which every 14-digit timestamp meets.
