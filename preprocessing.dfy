/**
 * `Preprocessing` of models/preprocessing.py. Its `__init__` assigns nothing, so
 * the `is None` guards of the stage methods read attributes that do not exist
 * yet and raise AttributeError on a fresh instance instead of running the
 * earlier stage: here an unassigned attribute is `None` and each stage requires
 * the attributes it reads. `preprocess` calls the five stages in order.
 */
module ModelsPreprocessing {
  import opened Wrappers
  import opened Tables
  import opened Pipeline
  import L = Learning

  /** The two CSV paths `leitura_dataset` reads. */
  const RED_CSV := "src/winequality-red.csv"
  const WHITE_CSV := "src/winequality-white.csv"

  class Preprocessing {
    /** The contents of each path on disk, as `pd.read_csv(path, sep=";")` parses it. */
    const readCsv: string -> Table
    /** scikit-learn's `train_test_split`. */
    const split: L.Splitter

    var dfRed: Option<Table>
    var dfWhite: Option<Table>
    var data: Option<Table>
    var X: Option<Table>
    var y: Option<seq<Value>>
    var XTrain: Option<Table>
    var XTest: Option<Table>
    var yTrain: Option<seq<Value>>
    var yTest: Option<seq<Value>>
    ghost var trace: seq<Stage>

    ghost function Environment(): Env {
      Env(readCsv(RED_CSV), readCsv(WHITE_CSV), Numeric, split)
    }

    ghost function Snapshot(): State
      reads this
    {
      State(dfRed, dfWhite, data, X, y, XTrain, XTest, yTrain, yTest, None, trace)
    }

    ghost predicate Valid()
      reads this
    {
      EnvOk(Environment()) && Inv(Snapshot(), Environment())
    }

    constructor (readCsv: string -> Table, split: L.Splitter)
      requires EnvOk(Env(readCsv(RED_CSV), readCsv(WHITE_CSV), Numeric, split))
      ensures this.readCsv == readCsv && this.split == split
      ensures Valid() && Snapshot() == Fresh(None)
    {
      this.readCsv := readCsv;
      this.split := split;
      dfRed, dfWhite, data := None, None, None;
      X, y := None, None;
      XTrain, XTest, yTrain, yTest := None, None, None, None;
      trace := [];
    }

    /** `leitura_dataset`: reads both files and returns the two frames. */
    method LeituraDataset() returns (red: Table, white: Table)
      requires Valid()
      modifies this
      ensures Valid() && Snapshot() == ReadStep(old(Snapshot()), Environment())
      ensures red == readCsv(RED_CSV) && white == readCsv(WHITE_CSV)
    {
      red, white := readCsv(RED_CSV), readCsv(WHITE_CSV);
      dfRed, dfWhite := Some(red), Some(white);
      trace := trace + [Read];
    }

    /** `join_datasets`: both frames must have been read. */
    method JoinDatasets() returns (merged: Table)
      requires Valid() && dfRed.Some? && dfWhite.Some?
      modifies this
      ensures Valid() && Snapshot() == JoinStep(old(Snapshot()), Environment())
      ensures data == Some(merged)
    {
      merged := Concat(dfRed.value, dfWhite.value);
      data := Some(merged);
      trace := trace + [Join];
    }

    /** `apply_categoria`: `data` must have been joined; returns the new `y`. */
    method ApplyCategoria() returns (labels: seq<Value>)
      requires Valid() && data.Some?
      modifies this
      ensures Valid() && Snapshot() == CategoriseStep(old(Snapshot()), Environment())
      ensures y == Some(labels)
    {
      var d := Apply(data.value, QUALITY, QUALITY, Labeller(Numeric));
      data := Some(d);
      labels := Column(d, QUALITY);
      y := Some(labels);
      trace := trace + [Categorise];
    }

    /** `feature_selection`: reads `data` and `y`, so both must have been assigned. */
    method FeatureSelection() returns (features: Table, target: seq<Value>)
      requires Valid() && data.Some? && y.Some?
      modifies this
      ensures Valid() && Snapshot() == SelectStep(old(Snapshot()), Environment())
      ensures X == Some(features) && y == Some(target)
    {
      features := Project(data.value, FEATURES);
      target := Column(data.value, QUALITY);
      X, y := Some(features), Some(target);
      trace := trace + [Select];
    }

    /** `split_dados`: reads `X` and `y`, so both must have been assigned. */
    method SplitDados(testSize: real := 0.2, randomState: int := 42)
      returns (xTrain: Table, xTest: Table, yTr: seq<Value>, yTe: seq<Value>)
      requires Valid() && X.Some? && y.Some?
      modifies this
      ensures Valid() && Snapshot() == SplitStep(old(Snapshot()), Environment(), testSize, randomState)
      ensures XTrain == Some(xTrain) && XTest == Some(xTest) && yTrain == Some(yTr) && yTest == Some(yTe)
    {
      var p := L.TrainTestSplit(split, X.value, y.value, testSize, randomState);
      xTrain, xTest, yTr, yTe := p.XTrain, p.XTest, p.yTrain, p.yTest;
      XTrain, XTest, yTrain, yTest := Some(xTrain), Some(xTest), Some(yTr), Some(yTe);
      trace := trace + [Split];
    }

    /** `preprocess`: read, join, categorise, select and split, from any state. */
    method Preprocess(testSize: real := 0.2, randomState: int := 42)
      returns (xTrain: Table, xTest: Table, yTr: seq<Value>, yTe: seq<Value>)
      requires Valid()
      modifies this
      ensures Valid() && Snapshot() == PreprocessRun(old(Snapshot()), Environment(), testSize, randomState)
      ensures XTrain == Some(xTrain) && XTest == Some(xTest) && yTrain == Some(yTr) && yTest == Some(yTe)
    {
      var _, _ := LeituraDataset();
      var _ := JoinDatasets();
      var _ := ApplyCategoria();
      var _, _ := FeatureSelection();
      xTrain, xTest, yTr, yTe := SplitDados(testSize, randomState);
    }
  }
}
