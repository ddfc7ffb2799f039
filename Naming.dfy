/**
  How the names the training side writes and the names the promotion step
  derives fit together: deriving the model name from a staged evaluation
  name gives back the name the model was stored under, and the production
  names keep the training naming under the production folder.
 */
module Naming {
  import opened StringOps
  import opened Training
  import opened Hosting

  /** One occurrence of the pattern, after a separator outside it and a
      word that cannot start it, between pattern-free parts. */
  lemma ReplaceSingle(folder: string, c: char, w: string, tail: string, pat: string, rep: string)
    requires pat != []
    requires c !in pat && pat[0] !in w
    requires !Contains(folder, pat) && !Contains(tail, pat)
    ensures Replace(folder + [c] + (w + (pat + tail)), pat, rep) == folder + [c] + (w + (rep + tail))
  {
    ReplaceKeepBefore(folder, c, w + (pat + tail), pat, rep);
    ReplaceSkip(w, pat + tail, pat, rep);
    ReplaceHit(tail, pat, rep);
    ReplaceAbsent(tail, pat, rep);
  }

  /** The first replacement turns the marker of the file name into `_` and
      touches nothing else. */
  lemma MarkerPass(folder: string, tail: string)
    requires !Contains(folder, EvaluationMarker) && !Contains(tail, EvaluationMarker)
    ensures Replace(folder + "model_evaluation_" + tail, EvaluationMarker, "_") == folder + "model_" + tail
  {
    assert 'm' !in EvaluationMarker && EvaluationMarker[0] !in "odel";
    ReplaceSingle(folder, 'm', "odel", tail, EvaluationMarker, "_");
    assert "model_evaluation_" == ['m'] + "odel" + EvaluationMarker;
    assert "model_" == ['m'] + "odel" + "_";
    Regroup4(folder, ['m'], "odel", EvaluationMarker, tail);
    Regroup4(folder, ['m'], "odel", "_", tail);
  }

  /** The second replacement turns only the final `.csv` into `.joblib`. */
  lemma ExtensionPass(folder: string, algorithm: string, timestamp: string)
    requires !Contains(folder, CsvExtension) && !Contains(algorithm, CsvExtension) && '.' !in timestamp
    ensures Replace(folder + "model_" + algorithm + "_" + timestamp + ".csv", CsvExtension, ModelExtension)
         == folder + "model_" + algorithm + "_" + timestamp + ".joblib"
  {
    assert 'm' !in CsvExtension && '_' !in CsvExtension;
    assert CsvExtension[3] == 'v';
    CharAbsent("odel", CsvExtension, 3);
    var last := timestamp + CsvExtension;
    var fields := algorithm + ['_'] + last;
    var file := "odel" + ['_'] + fields;
    ReplaceAtEnd(timestamp, CsvExtension, ModelExtension);
    ReplaceKeepBefore(algorithm, '_', last, CsvExtension, ModelExtension);
    ReplaceKeepBefore("odel", '_', fields, CsvExtension, ModelExtension);
    ReplaceKeepBefore(folder, 'm', file, CsvExtension, ModelExtension);
    assert "model_" == ['m'] + "odel" + ['_'];
    assert "_" == ['_'];
    Regroup(folder, ['m'], "odel", ['_'], algorithm, ['_'], timestamp, CsvExtension);
    Regroup(folder, ['m'], "odel", ['_'], algorithm, ['_'], timestamp, ModelExtension);
  }

  /** Concatenation regrouped, in the shape the names above are built in. */
  lemma Regroup<T>(a: seq<T>, b: seq<T>, c: seq<T>, d: seq<T>, e: seq<T>, f: seq<T>, g: seq<T>, h: seq<T>)
    ensures a + (b + c + d) + e + f + g + h == a + b + (c + d + (e + f + (g + h)))
  {
  }

  /** Concatenation regrouped, in the shape the file names are built in. */
  lemma Regroup3<T>(a: seq<T>, b: seq<T>, c: seq<T>, d: seq<T>, e: seq<T>, f: seq<T>)
    ensures a + (b + c + d + e + f) == a + b + (c + d + e + f)
    ensures a + (b + c + d + e + f) == a + b + c + d + e + f
  {
  }

  /** Concatenation regrouped around one replaced word. */
  lemma Regroup4<T>(f: seq<T>, c: seq<T>, w: seq<T>, p: seq<T>, t: seq<T>)
    ensures f + (c + w + p) + t == f + c + (w + (p + t))
  {
  }

  /** Concatenation regrouped around two separators. */
  lemma Regroup5<T>(h: seq<T>, u: seq<T>, m: seq<T>, v: seq<T>, t: seq<T>, e: seq<T>)
    ensures (h + u) + m + v + t + e == h + u + (m + v + (t + e))
  {
  }

  /** Deriving the model name from an evaluation blob name of a training run
      gives the run's model blob name, as long as no second marker or
      extension is hidden in the folder or the fields. */
  lemma StageModelNameRoundTrip(folder: string, algorithm: string, timestamp: string)
    requires !Contains(folder, EvaluationMarker) && !Contains(folder, CsvExtension)
    requires !Contains(algorithm + "_" + timestamp + ".csv", EvaluationMarker)
    requires !Contains(algorithm, CsvExtension) && '.' !in timestamp
    ensures StageModelName(EvaluationBlobName(folder, algorithm, timestamp)) == ModelBlobName(folder, algorithm, timestamp)
  {
    var tail := algorithm + "_" + timestamp + ".csv";
    var e := EvaluationBlobName(folder, algorithm, timestamp);
    assert e == folder + "model_evaluation_" + tail by {
      Regroup3(folder, "model_evaluation_", algorithm, "_", timestamp, ".csv");
    }
    assert StageModelName(e) == Replace(Replace(e, EvaluationMarker, "_"), CsvExtension, ModelExtension);
    MarkerPass(folder, tail);
    assert folder + "model_" + tail == folder + "model_" + algorithm + "_" + timestamp + ".csv" by {
      Regroup3(folder, "model_", algorithm, "_", timestamp, ".csv");
    }
    ExtensionPass(folder, algorithm, timestamp);
    Regroup3(folder, "model_", algorithm, "_", timestamp, ".joblib");
  }

  /** For a run that trained (the only algorithm accepted) with a timestamp
      of digits, the round trip needs only a folder free of the marker and of
      the extension. */
  lemma TrainedArtifactsRoundTrip(folder: string, algorithm: string, timestamp: string)
    requires GetModel(algorithm).Success? && IsTimestamp(timestamp)
    requires !Contains(folder, EvaluationMarker) && !Contains(folder, CsvExtension)
    ensures StageModelName(EvaluationBlobName(folder, algorithm, timestamp)) == ModelBlobName(folder, algorithm, timestamp)
  {
    var tail := algorithm + "_" + timestamp + ".csv";
    assert EvaluationMarker[5] == 'u' && 'u' !in tail;
    CharAbsent(tail, EvaluationMarker, 5);
    assert CsvExtension[3] == 'v' && 'v' !in algorithm;
    CharAbsent(algorithm, CsvExtension, 3);
    StageModelNameRoundTrip(folder, algorithm, timestamp);
  }

  /** A model blob name, cut after its first letter. */
  lemma ModelNameShape(folder: string, algorithm: string, timestamp: string)
    ensures ModelBlobName(folder, algorithm, timestamp) == folder + ['m'] + ("odel_" + algorithm + "_" + timestamp + ".joblib")
  {
    assert "model_" == ['m'] + "odel_";
    Regroup3(['m'], "odel_", algorithm, "_", timestamp, ".joblib");
  }

  /** An evaluation blob name, cut after its first letter. */
  lemma EvaluationNameShape(folder: string, algorithm: string, timestamp: string)
    ensures EvaluationBlobName(folder, algorithm, timestamp)
         == folder + ['m'] + ("odel_evaluation_" + algorithm + "_" + timestamp + ".csv")
  {
    assert "model_evaluation_" == ['m'] + "odel_evaluation_";
    Regroup3(['m'], "odel_evaluation_", algorithm, "_", timestamp, ".csv");
  }

  /** The production name of a trained run's model is the run's model name
      under the production folder. */
  lemma PromotedModelName(folder: string, algorithm: string, timestamp: string)
    requires GetModel(algorithm).Success? && IsTimestamp(timestamp)
    ensures ProdName(ModelBlobName(folder, algorithm, timestamp)) == ModelBlobName(ProdName(folder), algorithm, timestamp)
  {
    var file := "odel_" + algorithm + "_" + timestamp + ".joblib";
    assert StageToken[2] == 'a' && 'a' !in file;
    CharAbsent(file, StageToken, 2);
    ReplaceAbsent(file, StageToken, ProdToken);
    ReplaceAround(folder, 'm', file, StageToken, ProdToken);
    ModelNameShape(folder, algorithm, timestamp);
    ModelNameShape(ProdName(folder), algorithm, timestamp);
  }

  /** The fields of a trained run's names hold no `stage`. */
  lemma FieldsHaveNoStageToken(algorithm: string, timestamp: string)
    requires GetModel(algorithm).Success? && IsTimestamp(timestamp)
    ensures !Contains(algorithm, StageToken) && !Contains(timestamp + ".csv", StageToken)
  {
    assert StageToken[2] == 'a';
    assert 'a' !in timestamp + ".csv" && 'a' !in algorithm;
    CharAbsent(timestamp + ".csv", StageToken, 2);
    CharAbsent(algorithm, StageToken, 2);
  }

  /** Words free of `stage`, joined by `_`, hold no `stage`. */
  lemma JoinedHaveNoStageToken(head: string, middle: string, last: string)
    requires !Contains(head, StageToken) && !Contains(middle, StageToken) && !Contains(last, StageToken)
    ensures ProdName(head + ['_'] + (middle + ['_'] + last)) == head + ['_'] + (middle + ['_'] + last)
  {
    assert '_' !in StageToken;
    ReplaceAbsent(last, StageToken, ProdToken);
    ReplaceKeepBefore(middle, '_', last, StageToken, ProdToken);
    ReplaceKeepBefore(head, '_', middle + ['_'] + last, StageToken, ProdToken);
  }

  /** With fields free of `stage`, the file part of an evaluation name holds
      no `stage`. */
  lemma EvaluationFileHasNoStageToken(algorithm: string, timestamp: string)
    requires !Contains(algorithm, StageToken) && !Contains(timestamp + ".csv", StageToken)
    ensures ProdName("odel_evaluation_" + algorithm + "_" + timestamp + ".csv")
         == "odel_evaluation_" + algorithm + "_" + timestamp + ".csv"
  {
    assert StageToken[3] == 'g' && 'g' !in "odel_evaluation";
    CharAbsent("odel_evaluation", StageToken, 3);
    JoinedHaveNoStageToken("odel_evaluation", algorithm, timestamp + ".csv");
    assert "odel_evaluation_" == "odel_evaluation" + ['_'] && "_" == ['_'];
    Regroup5("odel_evaluation", ['_'], algorithm, ['_'], timestamp, ".csv");
  }

  /** The production name of a trained run's evaluation is the run's
      evaluation name under the production folder. */
  lemma PromotedEvaluationName(folder: string, algorithm: string, timestamp: string)
    requires GetModel(algorithm).Success? && IsTimestamp(timestamp)
    ensures ProdName(EvaluationBlobName(folder, algorithm, timestamp)) == EvaluationBlobName(ProdName(folder), algorithm, timestamp)
  {
    var file := "odel_evaluation_" + algorithm + "_" + timestamp + ".csv";
    FieldsHaveNoStageToken(algorithm, timestamp);
    EvaluationFileHasNoStageToken(algorithm, timestamp);
    ReplaceAround(folder, 'm', file, StageToken, ProdToken);
    EvaluationNameShape(folder, algorithm, timestamp);
    EvaluationNameShape(ProdName(folder), algorithm, timestamp);
  }

  /** Promotion commutes with the name derivation: the production model name
      the executor computes is also what the derivation gives for the
      production evaluation name. */
  lemma PromotedRoundTrip(folder: string, algorithm: string, timestamp: string)
    requires GetModel(algorithm).Success? && IsTimestamp(timestamp)
    requires !Contains(folder, EvaluationMarker) && !Contains(folder, CsvExtension)
    requires !Contains(ProdName(folder), EvaluationMarker) && !Contains(ProdName(folder), CsvExtension)
    ensures var evaluation := EvaluationBlobName(folder, algorithm, timestamp);
      StageModelName(ProdName(evaluation)) == ProdName(StageModelName(evaluation))
  {
    TrainedArtifactsRoundTrip(folder, algorithm, timestamp);
    PromotedModelName(folder, algorithm, timestamp);
    PromotedEvaluationName(folder, algorithm, timestamp);
    TrainedArtifactsRoundTrip(ProdName(folder), algorithm, timestamp);
  }

  /** Under a staging folder whose name holds `stage`, both staged names of
      a trained run hold it too, so their production names differ from them
      and a promotion leaves the staged blobs in place. */
  lemma StagedNamesHoldStageToken(folder: string, algorithm: string, timestamp: string)
    requires GetModel(algorithm).Success? && IsTimestamp(timestamp)
    requires !Contains(folder, EvaluationMarker) && !Contains(folder, CsvExtension)
    requires Contains(folder, StageToken)
    ensures var evaluation := EvaluationBlobName(folder, algorithm, timestamp);
      && Contains(evaluation, StageToken)
      && Contains(StageModelName(evaluation), StageToken)
      && ProdName(evaluation) != evaluation
      && ProdName(StageModelName(evaluation)) != StageModelName(evaluation)
  {
    TrainedArtifactsRoundTrip(folder, algorithm, timestamp);
    ContainsInPrefix(EvaluationBlobName(folder, algorithm, timestamp), folder, StageToken);
    ContainsInPrefix(ModelBlobName(folder, algorithm, timestamp), folder, StageToken);
    ProdNameRemovesStageToken(EvaluationBlobName(folder, algorithm, timestamp));
    ProdNameRemovesStageToken(ModelBlobName(folder, algorithm, timestamp));
  }
}
