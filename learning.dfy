/**
 * The library collaborators the core calls, as opaque operations with contracts:
 * scikit-learn's `train_test_split` (a partition of row positions) and an
 * estimator with `fit` and `predict`.
 */
module Learning {
  import opened Wrappers
  import opened Tables

  /** Row positions sent to the training and to the test partition. */
  datatype Split = Split(train: seq<nat>, test: seq<nat>)

  /** `train_test_split(..., test_size, random_state, stratify=y)` as the library
      chooses it: from the test size, the seed and the stratification labels to a
      split of the positions `0 .. |y|-1`. */
  type Splitter = (real, int, seq<Value>) -> Split

  predicate NoDuplicates(s: seq<nat>) {
    forall i, j :: 0 <= i < j < |s| ==> s[i] != s[j]
  }

  /** Disjoint train and test positions whose union is every row. */
  predicate IsPartition(s: Split, n: nat) {
    && (forall i :: 0 <= i < |s.train| ==> s.train[i] < n)
    && (forall i :: 0 <= i < |s.test| ==> s.test[i] < n)
    && NoDuplicates(s.train) && NoDuplicates(s.test)
    && (forall i, j :: 0 <= i < |s.train| && 0 <= j < |s.test| ==> s.train[i] != s.test[j])
    && (forall k :: 0 <= k < n ==> k in s.train || k in s.test)
  }

  /** The library's test-set size for a fractional `test_size`: `ceil(test_size * n)`. */
  function TestCount(n: nat, testSize: real): (c: int)
    ensures testSize * n as real <= c as real < testSize * n as real + 1.0
  {
    var x := testSize * n as real;
    if x.Floor as real == x then x.Floor else x.Floor + 1
  }

  /** What the model relies on from the library: the positions are split into
      a partition. */
  ghost predicate SplitterContract(split: Splitter) {
    forall f, seed, strata :: IsPartition(split(f, seed, strata), |strata|)
  }

  /** The library's sizing rule, assumed only where the train share is bounded:
      at the default test size 0.2 the test partition has `ceil(0.2 * n)` rows
      (over exact reals; the library's float product agrees at 0.2). */
  ghost predicate SplitterSizes(split: Splitter) {
    forall seed, strata :: |split(0.2, seed, strata).test| == TestCount(|strata|, 0.2)
  }

  /** The positions `0 .. n-1` as a set. */
  function Positions(n: nat): (r: set<nat>)
    ensures forall k: nat :: k in r <==> k < n
    ensures |r| == n
  {
    if n == 0 then {} else Positions(n - 1) + {n - 1}
  }

  function Elements(s: seq<nat>): set<nat> {
    set x | x in s
  }

  lemma {:induction false} DistinctCard(s: seq<nat>)
    requires NoDuplicates(s)
    ensures |Elements(s)| == |s|
  {
    if s != [] {
      DistinctCard(s[1..]);
      assert Elements(s) == {s[0]} + Elements(s[1..]);
      assert s[0] !in Elements(s[1..]);
    }
  }

  /** A partition of `n` rows puts exactly `n` rows into its two parts together. */
  lemma {:induction false} PartitionSizes(s: Split, n: nat)
    requires IsPartition(s, n)
    ensures |s.train| + |s.test| == n
  {
    var all := s.train + s.test;
    assert NoDuplicates(all) by {
      forall i, j | 0 <= i < j < |all| ensures all[i] != all[j] {
        if j < |s.train| {
        } else if i >= |s.train| {
          assert all[i] == s.test[i - |s.train|] && all[j] == s.test[j - |s.train|];
        } else {
          assert all[j] == s.test[j - |s.train|];
        }
      }
    }
    DistinctCard(all);
    assert Elements(all) == Positions(n);
  }

  /** The four frames `X_train, X_test, y_train, y_test`. */
  datatype Partitions = Partitions(XTrain: Table, XTest: Table, yTrain: seq<Value>, yTest: seq<Value>)

  /** `train_test_split(X, y, test_size, random_state, stratify=y)`: both frames are
      cut by the same positions, so row i of `X_train` belongs with entry i of
      `y_train`, and every input row lands in exactly one partition. */
  function TrainTestSplit(split: Splitter, X: Table, y: seq<Value>, testSize: real, randomState: int): (p: Partitions)
    requires SplitterContract(split) && |X.rows| == |y|
    ensures var s := split(testSize, randomState, y);
      && IsPartition(s, |y|)
      && p.XTrain.columns == X.columns && p.XTest.columns == X.columns
      && |p.XTrain.rows| == |p.yTrain| == |s.train|
      && |p.XTest.rows| == |p.yTest| == |s.test|
      && (forall i :: 0 <= i < |s.train| ==> p.XTrain.rows[i] == X.rows[s.train[i]] && p.yTrain[i] == y[s.train[i]])
      && (forall i :: 0 <= i < |s.test| ==> p.XTest.rows[i] == X.rows[s.test[i]] && p.yTest[i] == y[s.test[i]])
    ensures |p.yTrain| + |p.yTest| == |y|
  {
    var s := split(testSize, randomState, y);
    PartitionSizes(s, |y|);
    Partitions(Select(X, s.train), Select(X, s.test), SelectValues(y, s.train), SelectValues(y, s.test))
  }

  /** At the default `test_size=0.2` the training share lies strictly between 75%
      and 85% once there are at least 20 rows (the wine data has thousands). */
  lemma {:induction false} DefaultTrainShare(split: Splitter, X: Table, y: seq<Value>, randomState: int)
    requires SplitterContract(split) && SplitterSizes(split) && |X.rows| == |y| && |y| >= 20
    ensures var p := TrainTestSplit(split, X, y, 0.2, randomState);
      0.75 < (|p.XTrain.rows| as real) / (|y| as real) < 0.85
  {
    var p := TrainTestSplit(split, X, y, 0.2, randomState);
    var n := |y| as real;
    var train := |p.XTrain.rows| as real;
    assert |p.yTest| == TestCount(|y|, 0.2);
    assert train == n - TestCount(|y|, 0.2) as real;
    assert 0.75 * n < train < 0.85 * n;
    ShareBounds(train, n, 0.75, 0.85);
  }

  lemma ShareBounds(a: real, n: real, lo: real, hi: real)
    requires n > 0.0 && lo * n < a < hi * n
    ensures lo < a / n < hi
  {
    var q := a / n;
    assert a == q * n;
  }

  /** The fitted estimator's prediction rule, supplied by the library: from the
      training data and a feature row to a predicted label. */
  type Algorithm = (Table, seq<Value>, Row) -> Value

  /** `predict(X)`: one prediction per row, each by the learned rule. */
  function Predictions(algorithm: Algorithm, trainedOn: (Table, seq<Value>), X: Table): (p: seq<Value>)
    ensures |p| == |X.rows|
    ensures forall i :: 0 <= i < |p| ==> p[i] == algorithm(trainedOn.0, trainedOn.1, X.rows[i])
  {
    seq(|X.rows|, i requires 0 <= i < |X.rows| => algorithm(trainedOn.0, trainedOn.1, X.rows[i]))
  }

  /** A scikit-learn style estimator: `fit` mutates it in place; what it was last
      fitted on is all the model keeps of its internal state. */
  class Estimator {
    const typeName: string
    const randomState: int
    const algorithm: Algorithm
    var trainedOn: Option<(Table, seq<Value>)>

    constructor (typeName: string, randomState: int, algorithm: Algorithm)
      ensures this.typeName == typeName && this.randomState == randomState
      ensures this.algorithm == algorithm && trainedOn == None
    {
      this.typeName := typeName;
      this.randomState := randomState;
      this.algorithm := algorithm;
      trainedOn := None;
    }

    method Fit(X: Table, y: seq<Value>)
      modifies this
      ensures trainedOn == Some((X, y))
    {
      trainedOn := Some((X, y));
    }

    /** Predicting before any `fit` raises; afterwards one label per row. */
    method Predict(X: Table) returns (r: Result<seq<Value>>)
      ensures trainedOn.None? ==> r == Failure(NotFittedError)
      ensures trainedOn.Some? ==> r.Success? && r.value == Predictions(algorithm, trainedOn.value, X)
    {
      if trainedOn.None? {
        r := Failure(NotFittedError);
      } else {
        r := Success(Predictions(algorithm, trainedOn.value, X));
      }
    }
  }
}
