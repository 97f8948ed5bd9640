/**
 * The data preparation of entrypoints/XGboosting-test.py: the `labels`-flagged
 * merge, features that drop only `quality`, and `safe_smote_resample`, which
 * picks SMOTE's neighbour count from the smallest class of the training labels.
 */
module XgboostingTest {
  import opened Wrappers
  import opened Tables
  import opened Provenance

  /** `X = data.drop('quality', axis=1)`: every column but `quality`, in order. */
  function Features(data: Table): (X: Table)
    requires WellFormed(data) && QUALITY in data.columns
    ensures X.columns == Without(data.columns, [QUALITY])
    ensures forall c :: c in X.columns <==> c in data.columns && c != QUALITY
    ensures |X.rows| == |data.rows| && WellFormed(X)
    ensures forall k, c :: 0 <= k < |X.rows| && c in data.columns && c != QUALITY ==>
              c in X.rows[k] && X.rows[k][c] == data.rows[k][c]
  {
    Drop(data, [QUALITY])
  }

  /** `y = data['quality']`: the raw scores are the target. */
  function Target(data: Table): (y: seq<Value>)
    requires WellFormed(data) && QUALITY in data.columns
    ensures |y| == |data.rows|
    ensures forall k :: 0 <= k < |y| ==> y[k] == data.rows[k][QUALITY]
  {
    Column(data, QUALITY)
  }

  /** On the merged wine data only `quality` leaves the features: the red/white
      flag `labels` stays a feature, every other column stays, rows stay aligned. */
  lemma {:induction false} FeaturesKeepLabels(red: Table, white: Table)
    requires WineSources(red, white) && LABELS !in red.columns
    ensures var data := MergeLabelled(red, white);
      var X := Features(data);
      && LABELS in X.columns && QUALITY !in X.columns
      && (forall c :: c in X.columns <==> c in data.columns && c != QUALITY)
      && |X.rows| == |data.rows| == |Target(data)|
      && (forall k :: 0 <= k < |red.rows| ==> X.rows[k][LABELS] == Int(0))
      && (forall k :: |red.rows| <= k < |X.rows| ==> X.rows[k][LABELS] == Int(1))
  {
    var data := MergeLabelled(red, white);
    var X := Features(data);
    assert LABELS != QUALITY;
    assert LABELS in data.columns;
    forall k | 0 <= k < |red.rows|
      ensures X.rows[k][LABELS] == Int(0)
    {
      assert data.rows[k] == red.rows[k][LABELS := Int(0)];
    }
    forall k | |red.rows| <= k < |X.rows|
      ensures X.rows[k][LABELS] == Int(1)
    {
      assert data.rows[k] == white.rows[k - |red.rows|][LABELS := Int(1)];
    }
  }

  // ------------------------------------------------------ SMOTE guard

  /** `Counter(y)[c]`: how many entries of `y` are `c`. */
  function Count<L(==)>(y: seq<L>, c: L): (n: nat)
    ensures n > 0 <==> c in y
    ensures n <= |y|
  {
    multiset(y)[c]
  }

  /** `min(Counter(y).values())` over the classes among the first `n` entries: the
      count of one of them, and no larger than the count of any of them. */
  function MinCountOver<L(==)>(y: seq<L>, n: nat): (m: nat)
    requires 0 < n <= |y|
    ensures exists i :: 0 <= i < n && m == Count(y, y[i])
    ensures forall i :: 0 <= i < n ==> m <= Count(y, y[i])
    decreases n
  {
    if n == 1 then Count(y, y[0])
    else
      var rest := MinCountOver(y, n - 1);
      if Count(y, y[n - 1]) < rest then Count(y, y[n - 1]) else rest
  }

  /** `min(Counter(y).values())`: the size of the smallest class present in `y`. */
  function MinCount<L(==)>(y: seq<L>): (m: nat)
    requires |y| > 0
    ensures exists i :: 0 <= i < |y| && m == Count(y, y[i])
    ensures forall i :: 0 <= i < |y| ==> m <= Count(y, y[i])
    ensures m >= 1
  {
    var m := MinCountOver(y, |y|);
    var i :| 0 <= i < |y| && m == Count(y, y[i]);
    assert y[i] in multiset(y);
    m
  }

  /** `k = min(desired_k, max(1, min_count - 1))`. */
  function NeighbourCount(minCount: int, desiredK: int): (k: int)
    ensures k <= desiredK && (k == desiredK || k == if minCount - 1 < 1 then 1 else minCount - 1)
    ensures k <= (if minCount - 1 < 1 then 1 else minCount - 1)
    ensures desiredK >= 1 ==> 1 <= k
    ensures minCount >= 2 ==> k < minCount
  {
    var floor := if minCount - 1 < 1 then 1 else minCount - 1;
    if desiredK < floor then desiredK else floor
  }

  /** The script's call asks for 3 neighbours, and gets 3 as soon as every class
      has at least 4 samples. */
  lemma {:induction false} ScriptNeighbourCount(minCount: int)
    requires minCount >= 4
    ensures NeighbourCount(minCount, 3) == 3
  {
    assert minCount - 1 >= 3;
  }

  /** `SMOTE(random_state=r, k_neighbors=k).fit_resample(X, y)`, supplied by imblearn. */
  type Resampler<!F, !L> = (int, int, F, seq<L>) -> (F, seq<L>)

  /** `safe_smote_resample(X_train, y_train, random_state, desired_k)`: `min` of no
      counts raises; a class of at most one sample returns the inputs unchanged;
      otherwise SMOTE runs with the neighbour count derived from the smallest class. */
  function SafeSmoteResample<F, L(==)>(X: F, y: seq<L>, randomState: int, desiredK: int,
                                       smote: Resampler<F, L>): (r: Result<(F, seq<L>)>)
    ensures |y| == 0 <==> r == Failure(EmptyMin)
    ensures |y| > 0 && MinCount(y) <= 1 ==> r == Success((X, y))
    ensures |y| > 0 && MinCount(y) > 1 ==>
      r == Success(smote(randomState, NeighbourCount(MinCount(y), desiredK), X, y))
  {
    if |y| == 0 then Failure(EmptyMin)
    else
      var minCount := MinCount(y);
      if minCount <= 1 then Success((X, y))
      else Success(smote(randomState, NeighbourCount(minCount, desiredK), X, y))
  }

  /** Whenever it resamples with a positive `desired_k`, the neighbour count it
      passes lies in `1 .. desired_k` and every class present in `y` has more
      samples than that, which SMOTE needs to find `k` neighbours. */
  lemma {:induction false} ResampleNeighboursFit<L>(y: seq<L>, desiredK: int)
    requires |y| > 0 && MinCount(y) > 1 && desiredK >= 1
    ensures var k := NeighbourCount(MinCount(y), desiredK);
      && 1 <= k <= desiredK
      && forall i :: 0 <= i < |y| ==> Count(y, y[i]) > k
  {
    var m := MinCount(y);
    var k := NeighbourCount(m, desiredK);
    assert k < m;
  }

  /** A class with a single sample anywhere in `y` switches resampling off. */
  lemma {:induction false} SingletonClassSkips<F, L>(X: F, y: seq<L>, randomState: int, desiredK: int,
                                                        smote: Resampler<F, L>, i: int)
    requires 0 <= i < |y| && Count(y, y[i]) == 1
    ensures SafeSmoteResample(X, y, randomState, desiredK, smote) == Success((X, y))
  {
    assert MinCount(y) <= Count(y, y[i]);
  }
}
