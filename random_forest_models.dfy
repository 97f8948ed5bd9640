/**
 * `Modelo` of models/random_forest.py: ten fields start as `None`, and each stage
 * method first runs the stage that fills a field it needs when that field is
 * still `None`. Labels are the numeric classes 0, 1 and 2.
 */
module ModelsRandomForest {
  import opened Wrappers
  import opened Tables
  import opened Pipeline
  import L = Learning

  /** `save_model`'s target: the given path, or one named after the estimator's class. */
  function SavePath(filepath: Option<string>, typeName: string): (p: string)
    ensures filepath.Some? ==> p == filepath.value
    ensures filepath.None? ==>
      && |p| == |typeName| + 21
      && p[..14] == "models/modelo_" && p[14..|p| - 7] == typeName && p[|p| - 7..] == ".joblib"
  {
    match filepath
    case Some(path) => path
    case None => "models/modelo_" + typeName + ".joblib"
  }

  class Modelo {
    const pathWineRed: string
    const pathWineWhite: string
    /** The contents of each path on disk, as `pd.read_csv(path, sep=';')` parses it. */
    const readCsv: string -> Table
    /** scikit-learn's `train_test_split`. */
    const split: L.Splitter
    /** The estimator passed in; `fit` updates it in place. */
    const modelo: L.Estimator

    var dfRed: Option<Table>
    var dfWhite: Option<Table>
    var data: Option<Table>
    var X: Option<Table>
    var y: Option<seq<Value>>
    var XTrain: Option<Table>
    var XTest: Option<Table>
    var yTrain: Option<seq<Value>>
    var yTest: Option<seq<Value>>
    ghost var trace: seq<Stage>

    ghost function Environment(): Env {
      Env(readCsv(pathWineRed), readCsv(pathWineWhite), Numeric, split)
    }

    ghost function Snapshot(): State
      reads this, modelo
    {
      State(dfRed, dfWhite, data, X, y, XTrain, XTest, yTrain, yTest, modelo.trainedOn, trace)
    }

    ghost predicate Valid()
      reads this, modelo
    {
      EnvOk(Environment()) && Inv(Snapshot(), Environment())
    }

    constructor (pathWineRed: string, pathWineWhite: string, modelo: L.Estimator,
                 readCsv: string -> Table, split: L.Splitter)
      requires EnvOk(Env(readCsv(pathWineRed), readCsv(pathWineWhite), Numeric, split))
      ensures this.pathWineRed == pathWineRed && this.pathWineWhite == pathWineWhite && this.modelo == modelo
      ensures this.readCsv == readCsv && this.split == split
      ensures Valid() && Snapshot() == Fresh(modelo.trainedOn)
    {
      this.pathWineRed := pathWineRed;
      this.pathWineWhite := pathWineWhite;
      this.modelo := modelo;
      this.readCsv := readCsv;
      this.split := split;
      dfRed, dfWhite, data := None, None, None;
      X, y := None, None;
      XTrain, XTest, yTrain, yTest := None, None, None, None;
      trace := [];
    }

    /** `leitura_dataset`: reads both paths. */
    method LeituraDataset() returns (red: Table, white: Table)
      requires Valid()
      modifies this
      ensures Valid() && Snapshot() == ReadStep(old(Snapshot()), Environment())
      ensures red == readCsv(pathWineRed) && white == readCsv(pathWineWhite)
    {
      red, white := readCsv(pathWineRed), readCsv(pathWineWhite);
      dfRed, dfWhite := Some(red), Some(white);
      trace := trace + [Read];
    }

    /** `join_datasets`: reads first when either frame is `None`. */
    method JoinDatasets() returns (merged: Table)
      requires Valid()
      modifies this
      ensures Valid() && Snapshot() == LazyJoin(old(Snapshot()), Environment())
      ensures data == Some(merged)
    {
      if dfRed.None? || dfWhite.None? {
        var _, _ := LeituraDataset();
      }
      merged := RunJoin();
    }

    /** The body of `join_datasets` past its guard. */
    method RunJoin() returns (merged: Table)
      requires Valid() && dfRed.Some? && dfWhite.Some?
      modifies this
      ensures Valid() && Snapshot() == JoinStep(old(Snapshot()), Environment())
      ensures data == Some(merged)
    {
      merged := Concat(dfRed.value, dfWhite.value);
      data := Some(merged);
      trace := trace + [Join];
    }

    /** `apply_categoria`: joins first when `data` is `None`; returns the new `y`. */
    method ApplyCategoria() returns (labels: seq<Value>)
      requires Valid()
      modifies this
      ensures Valid() && Snapshot() == LazyCategorise(old(Snapshot()), Environment())
      ensures y == Some(labels)
    {
      if data.None? {
        var _ := JoinDatasets();
      }
      labels := RunCategorise();
    }

    /** The body of `apply_categoria` past its guard. */
    method RunCategorise() returns (labels: seq<Value>)
      requires Valid() && data.Some? && IntColumn(data.value, QUALITY)
      modifies this
      ensures Valid() && Snapshot() == CategoriseStep(old(Snapshot()), Environment())
      ensures y == Some(labels)
    {
      var d := Apply(data.value, QUALITY, QUALITY, Labeller(Numeric));
      data := Some(d);
      labels := Column(d, QUALITY);
      y := Some(labels);
      trace := trace + [Categorise];
    }

    /** `feature_selection`: joins when `data` is `None`, categorises when `y` is `None`. */
    method FeatureSelection() returns (features: Table, target: seq<Value>)
      requires Valid()
      modifies this
      ensures Valid() && Snapshot() == LazySelect(old(Snapshot()), Environment())
      ensures X == Some(features) && y == Some(target)
    {
      if data.None? {
        var _ := JoinDatasets();
      }
      if y.None? {
        var _ := ApplyCategoria();
      }
      features, target := RunSelect();
    }

    /** The body of `feature_selection` past its guards. */
    method RunSelect() returns (features: Table, target: seq<Value>)
      requires Valid() && data.Some?
      modifies this
      ensures Valid() && Snapshot() == SelectStep(old(Snapshot()), Environment())
      ensures X == Some(features) && y == Some(target)
    {
      features := Project(data.value, FEATURES);
      target := Column(data.value, QUALITY);
      X, y := Some(features), Some(target);
      trace := trace + [Select];
    }

    /** `split_dados`: selects first when `X` or `y` is `None`. */
    method SplitDados(testSize: real := 0.2, randomState: int := 42)
      returns (xTrain: Table, xTest: Table, yTr: seq<Value>, yTe: seq<Value>)
      requires Valid()
      modifies this
      ensures Valid() && Snapshot() == LazySplit(old(Snapshot()), Environment(), testSize, randomState)
      ensures XTrain == Some(xTrain) && XTest == Some(xTest) && yTrain == Some(yTr) && yTest == Some(yTe)
    {
      if X.None? || y.None? {
        var _, _ := FeatureSelection();
      }
      xTrain, xTest, yTr, yTe := RunSplit(testSize, randomState);
    }

    /** The body of `split_dados` past its guard. */
    method RunSplit(testSize: real, randomState: int)
      returns (xTrain: Table, xTest: Table, yTr: seq<Value>, yTe: seq<Value>)
      requires Valid() && X.Some? && y.Some?
      modifies this
      ensures Valid() && Snapshot() == SplitStep(old(Snapshot()), Environment(), testSize, randomState)
      ensures XTrain == Some(xTrain) && XTest == Some(xTest) && yTrain == Some(yTr) && yTest == Some(yTe)
    {
      var p := L.TrainTestSplit(split, X.value, y.value, testSize, randomState);
      xTrain, xTest, yTr, yTe := p.XTrain, p.XTest, p.yTrain, p.yTest;
      XTrain, XTest, yTrain, yTest := Some(xTrain), Some(xTest), Some(yTr), Some(yTe);
      trace := trace + [Split];
    }

    /** `apply_model`: splits with the defaults when `X_train` or `y_train` is
        `None`, fits, and returns the same estimator object. */
    method ApplyModel() returns (fitted: L.Estimator)
      requires Valid()
      modifies this, modelo
      ensures Valid() && Snapshot() == LazyFit(old(Snapshot()), Environment())
      ensures fitted == modelo
    {
      if XTrain.None? || yTrain.None? {
        var _, _, _, _ := SplitDados();
      }
      RunFit();
      fitted := modelo;
    }

    /** The body of `apply_model` past its guard. */
    method RunFit()
      requires Valid() && XTrain.Some? && yTrain.Some?
      modifies this, modelo
      ensures Valid() && Snapshot() == FitStep(old(Snapshot()))
    {
      FitStepInv(Snapshot(), Environment());
      modelo.Fit(XTrain.value, yTrain.value);
      trace := trace + [Fit];
    }

    /** `save_model`: returns the path `joblib.dump` writes to. */
    method SaveModel(filepath: Option<string> := None) returns (path: string)
      requires Valid()
      modifies this
      ensures Valid() && Snapshot() == SaveStep(old(Snapshot()))
      ensures path == SavePath(filepath, modelo.typeName)
    {
      path := SavePath(filepath, modelo.typeName);
      trace := trace + [Save];
    }

    /** `train`: the seven stages in order; the model is saved at the default path. */
    method Train() returns (path: string)
      requires Valid()
      modifies this, modelo
      ensures Valid() && Snapshot() == TrainRun(old(Snapshot()), Environment())
      ensures path == SavePath(None, modelo.typeName)
    {
      var _, _ := LeituraDataset();
      var _ := JoinDatasets();
      var _ := ApplyCategoria();
      var _, _ := FeatureSelection();
      var _, _, _, _ := SplitDados();
      var _ := ApplyModel();
      path := SaveModel();
    }
  }
}
