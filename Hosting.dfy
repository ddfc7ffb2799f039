/**
  The model promotion step (host_model.py): find the latest evaluation table
  under a folder, compare the production and staging tables on the positive
  class, and copy a staged model and its evaluation into production.

  The storage client is replaced by values: a listing is a sequence of
  `BlobInfo` (or `None` when listing raised), reading a CSV is a lookup in a
  map of parsed tables (a missing name is a read that raised), and the bucket
  that copies write into is a `Bucket` object.
 */
module Hosting {
  import opened Wrappers
  import opened StringOps
  import opened Artifacts

  // ---------------------------------------------------------------------
  // Loading the latest evaluation table
  // ---------------------------------------------------------------------

  /** A listed blob that is an evaluation table. */
  predicate IsCsv(b: BlobInfo)
  {
    EndsWith(b.name, ".csv")
  }

  /** Entry `i` is the one the loader keeps: a CSV entry created no earlier
      than any other CSV entry, and strictly later than every CSV entry
      listed before it (ties go to the first one listed). */
  ghost predicate IsLatestCsv(listing: seq<BlobInfo>, i: int)
  {
    && 0 <= i < |listing|
    && IsCsv(listing[i])
    && (forall j :: 0 <= j < |listing| && IsCsv(listing[j]) ==> listing[j].timeCreated <= listing[i].timeCreated)
    && (forall j :: 0 <= j < i && IsCsv(listing[j]) ==> listing[j].timeCreated < listing[i].timeCreated)
  }

  /** At most one entry is the latest CSV. */
  lemma LatestCsvUnique(listing: seq<BlobInfo>, i: int, j: int)
    requires IsLatestCsv(listing, i) && IsLatestCsv(listing, j)
    ensures i == j
  {
  }

  /** The scan over a listing that keeps the CSV entry with the greatest
      creation time; a later entry replaces the current one only when it was
      created strictly later. */
  method LatestCsv(listing: seq<BlobInfo>) returns (latest: Option<nat>)
    ensures latest.None? <==> forall j :: 0 <= j < |listing| ==> !IsCsv(listing[j])
    ensures latest.Some? ==> IsLatestCsv(listing, latest.value)
  {
    latest := None;
    var latestTime := 0;
    for i := 0 to |listing|
      invariant latest.None? <==> forall j :: 0 <= j < i ==> !IsCsv(listing[j])
      invariant latest.Some? ==> latest.value < i && IsCsv(listing[latest.value])
      invariant latest.Some? ==> listing[latest.value].timeCreated == latestTime
      invariant latest.Some? ==> forall j :: 0 <= j < i && IsCsv(listing[j]) ==> listing[j].timeCreated <= latestTime
      invariant latest.Some? ==> forall j :: 0 <= j < latest.value && IsCsv(listing[j]) ==> listing[j].timeCreated < latestTime
    {
      if IsCsv(listing[i]) {
        if latest.None? || listing[i].timeCreated > latestTime {
          latest := Some(i);
          latestTime := listing[i].timeCreated;
        }
      }
    }
  }

  /** What loading an evaluation table gives: the early return on missing
      configuration (a bare empty frame), the table with the blob it came
      from, success without a table when no CSV is listed, or failure. */
  datatype LoadOutcome =
    | LoadMissingConfig
    | Loaded(table: Frame, blob: BlobInfo)
    | NoEvaluation
    | LoadFailed

  /** Loads the most recent evaluation table of a folder. `listing` is what
      listing the folder returned (`None`: it raised); `csvFiles` holds the
      tables that can be read back, by blob name. */
  method GetModelEvaluationMetrics(
    projectId: string, bucketName: string, folder: string,
    listing: Option<seq<BlobInfo>>, csvFiles: map<string, Frame>)
    returns (r: LoadOutcome)
    ensures r.LoadMissingConfig? <==> projectId == "" || bucketName == "" || folder == ""
    ensures !r.LoadMissingConfig? && listing.None? ==> r.LoadFailed?
    ensures !r.LoadMissingConfig? && listing.Some? ==>
      (r.NoEvaluation? <==> forall j :: 0 <= j < |listing.value| ==> !IsCsv(listing.value[j]))
    ensures !r.LoadMissingConfig? && listing.Some? && !r.NoEvaluation? ==>
      exists i :: IsLatestCsv(listing.value, i) &&
        r == if listing.value[i].name in csvFiles then Loaded(csvFiles[listing.value[i].name], listing.value[i])
             else LoadFailed
  {
    if projectId == "" || bucketName == "" || folder == "" {
      return LoadMissingConfig;
    }
    if listing.None? {
      return LoadFailed;
    }
    var latest := LatestCsv(listing.value);
    if latest.None? {
      return NoEvaluation;
    }
    var blob := listing.value[latest.value];
    if blob.name !in csvFiles {
      return LoadFailed;
    }
    return Loaded(csvFiles[blob.name], blob);
  }

  // ---------------------------------------------------------------------
  // Comparing production and staging
  // ---------------------------------------------------------------------

  /** The metrics compared when the caller names none. */
  const DefaultMetrics: seq<string> := ["Accuracy", "F1-Score"]

  /** Production beats staging on `metric`: after both tables are filtered to
      their positive-class rows, `prod - stage` (aligned on row label) is
      positive on at least one label. Labels present in only one table give
      no value, so they never count. */
  predicate Improves(prod: seq<EvalRecord>, stage: seq<EvalRecord>, metric: string)
    requires IsNumericColumn(metric)
  {
    exists i | 0 <= i < |prod| && i < |stage| ::
      && prod[i].cls == PositiveClass
      && stage[i].cls == PositiveClass
      && Column(prod[i], metric) - Column(stage[i], metric) > 0.0
  }

  /** The outcome of a comparison: production better on every metric; not
      better on the named metric, the first one that fails; or an error
      (a frame without columns, a metric that is no numeric column). */
  datatype Comparison = ProdBetter | ProdNotBetter(metric: string) | CompareFailed

  /** The comparison over the metrics in order, stopping at the first one
      that fails. A rejection names a listed numeric metric on which
      production does not improve; an error comes from a listed metric that
      is no numeric column. */
  function CompareRows(prod: seq<EvalRecord>, stage: seq<EvalRecord>, metrics: seq<string>): (r: Comparison)
    ensures r.ProdNotBetter? ==>
      r.metric in metrics && IsNumericColumn(r.metric) && !Improves(prod, stage, r.metric)
    ensures r.CompareFailed? ==> exists k :: 0 <= k < |metrics| && !IsNumericColumn(metrics[k])
    decreases |metrics|
  {
    if metrics == [] then ProdBetter
    else if !IsNumericColumn(metrics[0]) then CompareFailed
    else if Improves(prod, stage, metrics[0]) then CompareRows(prod, stage, metrics[1..])
    else ProdNotBetter(metrics[0])
  }

  /** The comparison of two frames: selecting the `Class` column of a frame
      without columns fails before any metric is looked at. A rejection
      names a listed metric on which production does not improve. */
  function Compare(prod: Frame, stage: Frame, metrics: seq<string>): (r: Comparison)
    ensures !r.CompareFailed? ==> prod.Rows? && stage.Rows?
    ensures r.ProdNotBetter? ==>
      prod.Rows? && stage.Rows? && r.metric in metrics
      && IsNumericColumn(r.metric) && !Improves(prod.rows, stage.rows, r.metric)
  {
    if prod.NoColumns? || stage.NoColumns? then CompareFailed
    else CompareRows(prod.rows, stage.rows, metrics)
  }

  /** The message reported with each outcome (without the exception text of
      a failure). */
  function Message(c: Comparison): string
  {
    match c
    case ProdBetter => "Production model performance is better than stage model performance."
    case ProdNotBetter(metric) =>
      "for measure " + metric + ", Production model is NOT better than satge model. Not promoting the model."
    case CompareFailed => "ERROR: Failed to compare model performances."
  }

  /** The comparison loop: returns whether to promote and the message. */
  method CompareModelPerformances(prod: Frame, stage: Frame, metrics: seq<string>)
    returns (promote: bool, message: string)
    ensures promote <==> Compare(prod, stage, metrics) == ProdBetter
    ensures message == Message(Compare(prod, stage, metrics))
  {
    if prod.NoColumns? || stage.NoColumns? {
      return false, Message(CompareFailed);
    }
    var i := 0;
    while i < |metrics|
      invariant 0 <= i <= |metrics|
      invariant CompareRows(prod.rows, stage.rows, metrics) == CompareRows(prod.rows, stage.rows, metrics[i..])
    {
      var metric := metrics[i];
      if !IsNumericColumn(metric) {
        return false, Message(CompareFailed);
      }
      if !Improves(prod.rows, stage.rows, metric) {
        return false, Message(ProdNotBetter(metric));
      }
      assert metrics[i..][1..] == metrics[i + 1..];
      i := i + 1;
    }
    return true, Message(ProdBetter);
  }

  /** Promotion happens exactly when production is strictly better on every
      listed metric. */
  lemma {:induction false} CompareRowsBetterIff(prod: seq<EvalRecord>, stage: seq<EvalRecord>, metrics: seq<string>)
    ensures CompareRows(prod, stage, metrics) == ProdBetter <==>
      forall k :: 0 <= k < |metrics| ==> IsNumericColumn(metrics[k]) && Improves(prod, stage, metrics[k])
    decreases |metrics|
  {
    if metrics != [] {
      CompareRowsBetterIff(prod, stage, metrics[1..]);
      assert forall k :: 1 <= k < |metrics| ==> metrics[k] == metrics[1..][k - 1];
    }
  }

  lemma CompareBetterIff(prod: Frame, stage: Frame, metrics: seq<string>)
    ensures Compare(prod, stage, metrics) == ProdBetter <==>
      && prod.Rows? && stage.Rows?
      && forall k :: 0 <= k < |metrics| ==> IsNumericColumn(metrics[k]) && Improves(prod.rows, stage.rows, metrics[k])
  {
    if prod.Rows? && stage.Rows? {
      CompareRowsBetterIff(prod.rows, stage.rows, metrics);
    }
  }

  /** "Not better on `m`" is reported exactly when `m` is the first listed
      metric on which production is not strictly better, and every metric
      before it is a numeric column on which production is better. */
  lemma {:induction false} CompareRowsNotBetterIff(prod: seq<EvalRecord>, stage: seq<EvalRecord>, metrics: seq<string>, m: string)
    ensures CompareRows(prod, stage, metrics) == ProdNotBetter(m) <==>
      exists k :: 0 <= k < |metrics| && metrics[k] == m && IsNumericColumn(m) && !Improves(prod, stage, m)
        && forall j :: 0 <= j < k ==> IsNumericColumn(metrics[j]) && Improves(prod, stage, metrics[j])
    decreases |metrics|
  {
    if metrics != [] {
      CompareRowsNotBetterIff(prod, stage, metrics[1..], m);
      if CompareRows(prod, stage, metrics) == ProdNotBetter(m) {
        if IsNumericColumn(metrics[0]) && Improves(prod, stage, metrics[0]) {
          var k :| 0 <= k < |metrics[1..]| && metrics[1..][k] == m && IsNumericColumn(m) && !Improves(prod, stage, m)
            && forall j :: 0 <= j < k ==> IsNumericColumn(metrics[1..][j]) && Improves(prod, stage, metrics[1..][j]);
          assert metrics[k + 1] == m;
          forall j | 0 <= j < k + 1
            ensures IsNumericColumn(metrics[j]) && Improves(prod, stage, metrics[j])
          {
            if j > 0 {
              assert metrics[j] == metrics[1..][j - 1];
            }
          }
        } else {
          assert metrics[0] == m;
        }
      } else {
        forall k | 0 <= k < |metrics| && metrics[k] == m && IsNumericColumn(m) && !Improves(prod, stage, m)
          ensures exists j :: 0 <= j < k && !(IsNumericColumn(metrics[j]) && Improves(prod, stage, metrics[j]))
        {
          if k > 0 && IsNumericColumn(metrics[0]) && Improves(prod, stage, metrics[0]) {
            assert metrics[1..][k - 1] == m;
            var j :| 0 <= j < k - 1 && !(IsNumericColumn(metrics[1..][j]) && Improves(prod, stage, metrics[1..][j]));
            assert metrics[1..][j] == metrics[j + 1];
          } else if k > 0 {
            assert !(IsNumericColumn(metrics[0]) && Improves(prod, stage, metrics[0]));
          }
        }
      }
    }
  }

  /** Once a prefix of the metrics decides against promotion, metrics listed
      after it are never examined. */
  lemma {:induction false} CompareRowsStopsAtFirstFailure(
    prod: seq<EvalRecord>, stage: seq<EvalRecord>, metrics: seq<string>, later: seq<string>)
    requires CompareRows(prod, stage, metrics) != ProdBetter
    ensures CompareRows(prod, stage, metrics + later) == CompareRows(prod, stage, metrics)
    decreases |metrics|
  {
    assert metrics != [];
    assert (metrics + later)[0] == metrics[0];
    if IsNumericColumn(metrics[0]) && Improves(prod, stage, metrics[0]) {
      assert (metrics + later)[1..] == metrics[1..] + later;
      CompareRowsStopsAtFirstFailure(prod, stage, metrics[1..], later);
    }
  }

  /** A table never beats itself: equal values reject. */
  lemma NeverBetterThanItself(t: Frame, metrics: seq<string>)
    requires metrics != []
    ensures Compare(t, t, metrics) != ProdBetter
  {
    if t.Rows? && IsNumericColumn(metrics[0]) {
      assert !Improves(t.rows, t.rows, metrics[0]);
    }
  }

  /** On tables of the trained shape, only the second row (the positive
      class) is compared. */
  lemma ImprovesOnTrainedTables(prod: seq<EvalRecord>, stage: seq<EvalRecord>, metric: string)
    requires TrainedShape(prod) && TrainedShape(stage)
    requires IsNumericColumn(metric)
    ensures Improves(prod, stage, metric) <==> Column(prod[1], metric) > Column(stage[1], metric)
  {
    if Column(prod[1], metric) > Column(stage[1], metric) {
      assert prod[1].cls == PositiveClass && stage[1].cls == PositiveClass;
    }
  }

  /** With the default metrics and tables of the trained shape: production
      must have the strictly higher accuracy, then the strictly higher F1
      score of the positive class; accuracy is checked first. */
  lemma DefaultComparisonOnTrainedTables(prod: seq<EvalRecord>, stage: seq<EvalRecord>)
    requires TrainedShape(prod) && TrainedShape(stage)
    ensures Compare(Rows(prod), Rows(stage), DefaultMetrics) ==
      if prod[1].accuracy <= stage[1].accuracy then ProdNotBetter("Accuracy")
      else if prod[1].f1Score <= stage[1].f1Score then ProdNotBetter("F1-Score")
      else ProdBetter
  {
    ImprovesOnTrainedTables(prod, stage, "Accuracy");
    ImprovesOnTrainedTables(prod, stage, "F1-Score");
    assert DefaultMetrics[1..] == ["F1-Score"];
    assert DefaultMetrics[1..][1..] == [];
  }

  /** A table whose positive-class row is missing is not an error: the
      first numeric metric reports production as not better. */
  lemma MissingPositiveRowRejects(prod: seq<EvalRecord>, stage: seq<EvalRecord>, metrics: seq<string>)
    requires forall i :: 0 <= i < |prod| ==> prod[i].cls != PositiveClass
    requires metrics != [] && IsNumericColumn(metrics[0])
    ensures Compare(Rows(prod), Rows(stage), metrics) == ProdNotBetter(metrics[0])
  {
  }

  // ---------------------------------------------------------------------
  // Promoting a staged model
  // ---------------------------------------------------------------------

  const EvaluationMarker: string := "_evaluation_"
  const CsvExtension: string := ".csv"
  const ModelExtension: string := ".joblib"
  const StageToken: string := "stage"
  const ProdToken: string := "prod"

  /** The model blob named by an evaluation blob: the marker becomes `_`
      and the extension `.joblib`, at every occurrence. */
  function StageModelName(evaluationName: string): string
  {
    Replace(Replace(evaluationName, EvaluationMarker, "_"), CsvExtension, ModelExtension)
  }

  /** A name carrying neither the marker nor the extension names itself. */
  lemma StageModelNameUnchanged(evaluationName: string)
    requires !Contains(evaluationName, EvaluationMarker) && !Contains(evaluationName, CsvExtension)
    ensures StageModelName(evaluationName) == evaluationName
  {
    ReplaceAbsent(evaluationName, EvaluationMarker, "_");
    ReplaceAbsent(evaluationName, CsvExtension, ModelExtension);
  }

  /** The production name of a staged blob: every `stage` becomes `prod`. */
  function ProdName(name: string): string
  {
    Replace(name, StageToken, ProdToken)
  }

  /** A production name holds no `stage`, so deriving it again changes
      nothing. */
  lemma ProdNameRemovesStageToken(name: string)
    ensures !Contains(ProdName(name), StageToken)
    ensures ProdName(ProdName(name)) == ProdName(name)
  {
    assert forall k :: 0 <= k < |ProdToken| ==> ProdToken[k] !in StageToken;
    ReplaceRemovesAll(name, StageToken, ProdToken);
    ReplaceIdempotent(name, StageToken, ProdToken);
  }

  /** A name without `stage` is its own production name. */
  lemma ProdNameUnchanged(name: string)
    requires !Contains(name, StageToken)
    ensures ProdName(name) == name
  {
    ReplaceAbsent(name, StageToken, ProdToken);
  }

  /** The message a successful promotion reports. */
  const MovedMessage: string := "Model and evaluation files moved successfully."

  /** What the promotion returns: the early return on missing
      configuration (a bare empty frame), success with its message and the
      production model name, or failure with the staged model name. */
  datatype MoveOutcome =
    | MoveMissingConfig
    | Moved(message: string, prodModelName: string)
    | MoveFailed(stageModelName: string)

  /** A storage bucket: blobs by full name. */
  class Bucket {
    var blobs: map<string, Blob>

    constructor (initial: map<string, Blob>)
      ensures blobs == initial
    {
      blobs := initial;
    }

    /** Copies a blob to a new name in the same bucket; the copy is created
        at `now`. Fails, changing nothing, when the source does not exist
        or the store faults on it. */
    method CopyBlob(source: string, destination: string, now: int, faults: set<string>) returns (ok: bool)
      modifies this
      ensures ok <==> source in old(blobs) && source !in faults
      ensures blobs == if ok then old(blobs)[destination := Blob(now, old(blobs)[source].content)] else old(blobs)
    {
      ok := source in blobs && source !in faults;
      if ok {
        blobs := blobs[destination := Blob(now, blobs[source].content)];
      }
    }

    /** Promotes the staged model named by `stageEval`: copies the model,
        then its evaluation, to their production names, and keeps the staged
        originals; when both staged names hold `stage`, a promotion leaves
        them untouched. `faults` names the blobs on which the store fails. */
    method MoveModelFromStageToProd(
      projectId: string, bucketName: string, stageFolder: string,
      stageEval: Option<BlobInfo>, prodFolder: string, now: int, faults: set<string>)
      returns (r: MoveOutcome)
      modifies this
      ensures projectId == "" || bucketName == "" || stageFolder == "" || prodFolder == "" || stageEval.None? ==>
        r == MoveMissingConfig && blobs == old(blobs)
      ensures !(projectId == "" || bucketName == "" || stageFolder == "" || prodFolder == "" || stageEval.None?) ==>
        var evalName := stageEval.value.name;
        var stageModel := StageModelName(evalName);
        var prodModel := ProdName(stageModel);
        var prodEval := ProdName(evalName);
        var modelCopied := stageModel in old(blobs) && stageModel !in faults;
        var afterModel := if modelCopied then old(blobs)[prodModel := Blob(now, old(blobs)[stageModel].content)] else old(blobs);
        var evalCopied := modelCopied && evalName in afterModel && evalName !in faults;
        && r == (if evalCopied then Moved(MovedMessage, prodModel) else MoveFailed(stageModel))
        && blobs == (if evalCopied then afterModel[prodEval := Blob(now, afterModel[evalName].content)] else afterModel)
      ensures old(blobs).Keys <= blobs.Keys
      ensures r.Moved? ==> StageModelName(stageEval.value.name) in blobs && stageEval.value.name in blobs
      ensures r.Moved? && Contains(stageEval.value.name, StageToken) && Contains(StageModelName(stageEval.value.name), StageToken) ==>
        && stageEval.value.name in old(blobs) && StageModelName(stageEval.value.name) in old(blobs)
        && blobs[stageEval.value.name] == old(blobs)[stageEval.value.name]
        && blobs[StageModelName(stageEval.value.name)] == old(blobs)[StageModelName(stageEval.value.name)]
    {
      if projectId == "" || bucketName == "" || stageFolder == "" || prodFolder == "" || stageEval.None? {
        return MoveMissingConfig;
      }
      var evalName := stageEval.value.name;
      var stageModel := StageModelName(evalName);
      var prodEval := ProdName(evalName);
      var prodModel := ProdName(stageModel);
      ProdNameRemovesStageToken(evalName);
      ProdNameRemovesStageToken(stageModel);
      var ok := CopyBlob(stageModel, prodModel, now, faults);
      if !ok {
        return MoveFailed(stageModel);
      }
      ok := CopyBlob(evalName, prodEval, now, faults);
      if !ok {
        return MoveFailed(stageModel);
      }
      return Moved(MovedMessage, prodModel);
    }
  }
}
