/**
 * The data preparation of RandomForest_v2.py: the `labels`-flagged merge, the
 * fixed six-column feature list, and the string target of `categoria_quality`.
 */
module RandomForestV2 {
  import opened Wrappers
  import opened Tables
  import opened Quality
  import opened Provenance

  /** `X = data[[...six columns...]]`: exactly the listed columns, in that order. */
  function Features(data: Table): (X: Table)
    requires WellFormed(data) && forall c :: c in FEATURES ==> c in data.columns
    ensures X.columns == FEATURES && |X.rows| == |data.rows| && WellFormed(X)
    ensures forall k, c :: 0 <= k < |X.rows| && c in FEATURES ==> X.rows[k][c] == data.rows[k][c]
  {
    FeaturesDistinct();
    Project(data, FEATURES)
  }

  /** `y = data['quality'].apply(categoria_quality)`: one text label per row. */
  function Target(data: Table): (y: seq<Value>)
    requires WellFormed(data) && IntColumn(data, QUALITY)
    ensures |y| == |data.rows|
    ensures forall k :: 0 <= k < |y| ==> y[k] == Str(CategoriaQuality(data.rows[k][QUALITY].n))
  {
    ApplySeries(Column(data, QUALITY), q => Str(CategoriaQuality(q)))
  }

  /** The features are those of models/preprocessing.py on the same two files: the
      `labels` flag is not among the six columns, so the flagged merge and the plain
      concatenation project to the same table. */
  lemma {:induction false} FeaturesMatchPreprocessing(red: Table, white: Table)
    requires WineSources(red, white)
    ensures Features(MergeLabelled(red, white)) == Project(Concat(red, white), FEATURES)
  {
    var data := MergeLabelled(red, white);
    var plain := Concat(red, white);
    var a, b := Features(data), Project(plain, FEATURES);
    assert LABELS !in FEATURES;
    forall k | 0 <= k < |a.rows|
      ensures a.rows[k] == b.rows[k]
    {
      forall c | c in FEATURES
        ensures a.rows[k][c] == b.rows[k][c]
      {
        if k < |red.rows| {
          assert data.rows[k] == red.rows[k][LABELS := Int(0)];
          assert plain.rows[k] == red.rows[k];
        } else {
          assert data.rows[k] == white.rows[k - |red.rows|][LABELS := Int(1)];
          assert plain.rows[k] == white.rows[k - |red.rows|];
        }
      }
    }
  }

  /** Row i of `X` belongs with entry i of `y`, and reading each text label through
      Ruim = 0, Média = 1, Boa = 2 gives the numeric categoriser's class of the
      score of that row in its source file, red rows first. */
  lemma {:induction false} TargetDecodesToCategoria(red: Table, white: Table)
    requires WineSources(red, white)
    ensures var data := MergeLabelled(red, white);
      var y := Target(data);
      && |Features(data).rows| == |y| == |red.rows| + |white.rows|
      && (forall k :: 0 <= k < |red.rows| ==>
            y[k].Str? && Ordinal(y[k].s) == Some(Categoria(red.rows[k][QUALITY].n)))
      && (forall k :: |red.rows| <= k < |y| ==>
            y[k].Str? && Ordinal(y[k].s) == Some(Categoria(white.rows[k - |red.rows|][QUALITY].n)))
  {
    var data := MergeLabelled(red, white);
    var y := Target(data);
    forall k | 0 <= k < |red.rows|
      ensures y[k].Str? && Ordinal(y[k].s) == Some(Categoria(red.rows[k][QUALITY].n))
    {
      assert data.rows[k] == red.rows[k][LABELS := Int(0)];
      StringCategorisersAgree(red.rows[k][QUALITY].n);
    }
    forall k | |red.rows| <= k < |y|
      ensures y[k].Str? && Ordinal(y[k].s) == Some(Categoria(white.rows[k - |red.rows|][QUALITY].n))
    {
      assert data.rows[k] == white.rows[k - |red.rows|][LABELS := Int(1)];
      StringCategorisersAgree(white.rows[k - |red.rows|][QUALITY].n);
    }
  }
}
