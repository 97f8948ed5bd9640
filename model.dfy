/**
 * `Modelo` of models/model.py: a `Preprocessing` and a random forest with
 * `random_state=42`. `apply_model` refuses to fit until both training partitions
 * are set; `train` sets all four from `preprocess` first, so there it always fits.
 */
module ModelsModel {
  import opened Wrappers
  import opened Tables
  import opened Pipeline
  import L = Learning
  import P = ModelsPreprocessing

  const DEFAULT_MODEL_PATH := "models/random_forest_model.joblib"

  /** What the message says is wrong with the training data. */
  const UNPREPARED_CAUSE := "não foram preparados"

  /** The message of the ValueError raised on unprepared training data. */
  const UNPREPARED_MESSAGE := "Dados de treino " + UNPREPARED_CAUSE + ". " + "Execute o pré-processamento primeiro."

  predicate Contains(s: string, part: string) {
    exists i :: 0 <= i <= |s| && part <= s[i..]
  }

  /** The message names its cause: the training data "não foram preparados". */
  lemma UnpreparedMessageNamesCause()
    ensures Contains(UNPREPARED_MESSAGE, "não foram preparados")
  {
    var before, after := "Dados de treino ", ". " + "Execute o pré-processamento primeiro.";
    assert UNPREPARED_MESSAGE == before + UNPREPARED_CAUSE + after;
    assert UNPREPARED_MESSAGE[|before|..] == UNPREPARED_CAUSE + after;
  }

  /** `save_model`'s target: the given path, or the fixed default. */
  function SavePath(filepath: Option<string>): (p: string)
    ensures filepath.Some? ==> p == filepath.value
    ensures filepath.None? ==> p == DEFAULT_MODEL_PATH
  {
    filepath.GetOr(DEFAULT_MODEL_PATH)
  }

  class Modelo {
    const preprocessing: P.Preprocessing
    const modelo: L.Estimator
    var XTrain: Option<Table>
    var XTest: Option<Table>
    var yTrain: Option<seq<Value>>
    var yTest: Option<seq<Value>>
    /** Fits and saves done so far. */
    ghost var trace: seq<Stage>

    ghost predicate Valid()
      reads this, preprocessing
    {
      preprocessing.Valid()
    }

    /** `__init__`: a fresh `Preprocessing` (CSV contents and split are the
        environment's), a `RandomForestClassifier(random_state=42)` whose learning
        rule is `forest`, and four unset partitions. */
    constructor (readCsv: string -> Table, split: L.Splitter, forest: L.Algorithm)
      requires EnvOk(Env(readCsv(P.RED_CSV), readCsv(P.WHITE_CSV), Numeric, split))
      ensures Valid() && fresh(preprocessing) && fresh(modelo)
      ensures preprocessing.Snapshot() == Fresh(None)
      ensures modelo.typeName == "RandomForestClassifier" && modelo.randomState == 42
      ensures modelo.algorithm == forest && modelo.trainedOn.None?
      ensures XTrain.None? && XTest.None? && yTrain.None? && yTest.None? && trace == []
    {
      preprocessing := new P.Preprocessing(readCsv, split);
      modelo := new L.Estimator("RandomForestClassifier", 42, forest);
      XTrain, XTest, yTrain, yTest := None, None, None, None;
      trace := [];
    }

    /** `apply_model`: without both training partitions it raises ValueError and
        fits nothing; with them it fits on them and returns the estimator. */
    method ApplyModel() returns (r: Result<L.Estimator>)
      modifies this, modelo
      ensures XTrain == old(XTrain) && XTest == old(XTest) && yTrain == old(yTrain) && yTest == old(yTest)
      ensures XTrain.None? || yTrain.None? ==>
        && r == Failure(ValueError(UNPREPARED_MESSAGE))
        && modelo.trainedOn == old(modelo.trainedOn) && trace == old(trace)
      ensures XTrain.Some? && yTrain.Some? ==>
        && r == Success(modelo)
        && modelo.trainedOn == Some((XTrain.value, yTrain.value)) && trace == old(trace) + [Fit]
    {
      if XTrain.None? || yTrain.None? {
        r := Failure(ValueError(UNPREPARED_MESSAGE));
      } else {
        modelo.Fit(XTrain.value, yTrain.value);
        trace := trace + [Fit];
        r := Success(modelo);
      }
    }

    /** `save_model`: returns the path `joblib.dump` writes to. */
    method SaveModel(filepath: Option<string> := None) returns (path: string)
      modifies this
      ensures path == SavePath(filepath) && trace == old(trace) + [Save]
      ensures XTrain == old(XTrain) && XTest == old(XTest) && yTrain == old(yTrain) && yTest == old(yTest)
    {
      path := SavePath(filepath);
      trace := trace + [Save];
    }

    /** `train`: assigns the four partitions from `preprocess`, so the guard of
        `apply_model` cannot fire; fits on labels of the classes 0, 1 and 2, then
        saves at the default path. */
    method Train(testSize: real := 0.2, randomState: int := 42) returns (path: string)
      requires Valid()
      modifies this, preprocessing, modelo
      ensures Valid()
      ensures preprocessing.Snapshot() ==
        PreprocessRun(old(preprocessing.Snapshot()), preprocessing.Environment(), testSize, randomState)
      ensures XTrain == preprocessing.XTrain && XTest == preprocessing.XTest
      ensures yTrain == preprocessing.yTrain && yTest == preprocessing.yTest
      ensures XTrain.Some? && yTrain.Some? && modelo.trainedOn == Some((XTrain.value, yTrain.value))
      ensures ClassLabels(yTrain.value) && ClassLabels(yTest.value)
      ensures trace == old(trace) + [Fit, Save] && path == DEFAULT_MODEL_PATH
    {
      ghost var before := preprocessing.Snapshot();
      var a, b, c, d := preprocessing.Preprocess(testSize, randomState);
      PreprocessLabels(before, preprocessing.Environment(), testSize, randomState);
      XTrain, XTest, yTrain, yTest := Some(a), Some(b), Some(c), Some(d);
      var _ := ApplyModel();
      path := SaveModel();
    }
  }
}
