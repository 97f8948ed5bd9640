/**
 * The data preparation of gradient_boosting_agrupado.py: the `type`-flagged merge,
 * a new `quality_category` column from `agrupar_qualidade`, features without
 * either quality column, and the grouped category as the target.
 */
module GradientBoostingAgrupado {
  import opened Tables
  import opened Quality
  import opened Provenance

  const QUALITY_CATEGORY := "quality_category"

  /** `df['quality_category'] = df['quality'].apply(agrupar_qualidade)`: the raw
      score stays where it is and the group goes into its own column. */
  function WithCategory(df: Table): (r: Table)
    requires WellFormed(df) && IntColumn(df, QUALITY)
    ensures QUALITY_CATEGORY in r.columns && WellFormed(r) && IntColumn(r, QUALITY_CATEGORY)
    ensures r.columns == if QUALITY_CATEGORY in df.columns then df.columns else df.columns + [QUALITY_CATEGORY]
    ensures forall c :: c in r.columns <==> c in df.columns || c == QUALITY_CATEGORY
    ensures |r.rows| == |df.rows|
    ensures forall k :: 0 <= k < |r.rows| ==>
      r.rows[k][QUALITY_CATEGORY] == Int(AgruparQualidade(df.rows[k][QUALITY].n))
    ensures forall k, c :: 0 <= k < |r.rows| && c in df.columns && c != QUALITY_CATEGORY ==>
      r.rows[k][c] == df.rows[k][c]
  {
    Apply(df, QUALITY, QUALITY_CATEGORY, q => Int(AgruparQualidade(q)))
  }

  /** `X = df.drop(['quality', 'quality_category'], axis=1)`. */
  function Features(df: Table): (X: Table)
    requires WellFormed(df) && QUALITY in df.columns && QUALITY_CATEGORY in df.columns
    ensures X.columns == Without(df.columns, [QUALITY, QUALITY_CATEGORY])
    ensures forall c :: c in X.columns <==> c in df.columns && c != QUALITY && c != QUALITY_CATEGORY
    ensures |X.rows| == |df.rows| && WellFormed(X)
    ensures forall k, c :: 0 <= k < |X.rows| && c in X.columns ==> X.rows[k][c] == df.rows[k][c]
  {
    Drop(df, [QUALITY, QUALITY_CATEGORY])
  }

  /** `y = df['quality_category']`. */
  function Target(df: Table): (y: seq<Value>)
    requires WellFormed(df) && QUALITY_CATEGORY in df.columns
    ensures |y| == |df.rows|
    ensures forall k :: 0 <= k < |y| ==> y[k] == df.rows[k][QUALITY_CATEGORY]
  {
    Column(df, QUALITY_CATEGORY)
  }

  /** The whole preparation: merge, categorise, then features and target. */
  function Prepare(tinto: Table, branco: Table): (p: (Table, seq<Value>))
    requires WineSources(tinto, branco)
    ensures |p.0.rows| == |p.1| == |tinto.rows| + |branco.rows|
  {
    var df := WithCategory(MergeTyped(tinto, branco));
    (Features(df), Target(df))
  }

  /** `X` keeps the `type` flag and every measurement column, and drops both
      quality columns. */
  lemma {:induction false} FeaturesKeepType(tinto: Table, branco: Table)
    requires WineSources(tinto, branco) && QUALITY_CATEGORY !in tinto.columns
    ensures var X := Prepare(tinto, branco).0;
      && TYPE in X.columns && QUALITY !in X.columns && QUALITY_CATEGORY !in X.columns
      && (forall c :: c in tinto.columns && c != QUALITY ==> c in X.columns)
  {
    assert TYPE != QUALITY && TYPE != QUALITY_CATEGORY;
    assert TYPE in MergeTyped(tinto, branco).columns;
  }

  /** In `X` the `type` flag is 1.0 on the red rows, which come first, and 0.0 on
      the white ones. */
  lemma {:induction false} TypeFlagByOrigin(tinto: Table, branco: Table)
    requires WineSources(tinto, branco)
    ensures var X := Prepare(tinto, branco).0;
      && (forall k :: 0 <= k < |tinto.rows| ==> TYPE in X.rows[k] && X.rows[k][TYPE] == Num(1.0))
      && (forall k :: |tinto.rows| <= k < |X.rows| ==> TYPE in X.rows[k] && X.rows[k][TYPE] == Num(0.0))
  {
    var merged := MergeTyped(tinto, branco);
    var df := WithCategory(merged);
    var X := Features(df);
    assert TYPE != QUALITY && TYPE != QUALITY_CATEGORY;
    assert TYPE in merged.columns;
    forall k | 0 <= k < |tinto.rows|
      ensures TYPE in X.rows[k] && X.rows[k][TYPE] == Num(1.0)
    {
      assert merged.rows[k] == tinto.rows[k][TYPE := Num(1.0)];
    }
    forall k | |tinto.rows| <= k < |X.rows|
      ensures TYPE in X.rows[k] && X.rows[k][TYPE] == Num(0.0)
    {
      assert merged.rows[k] == branco.rows[k - |tinto.rows|][TYPE := Num(0.0)];
    }
  }

  /** Entry k of `y` is the group of the raw score of row k of its source file,
      red rows first; the raw `quality` column itself is left untouched. */
  lemma {:induction false} TargetGroupsRawScores(tinto: Table, branco: Table)
    requires WineSources(tinto, branco)
    ensures var merged := MergeTyped(tinto, branco);
      var df := WithCategory(merged);
      var y := Prepare(tinto, branco).1;
      && IntColumn(df, QUALITY) && Column(df, QUALITY) == Column(merged, QUALITY)
      && (forall k :: 0 <= k < |tinto.rows| ==> y[k] == Int(AgruparQualidade(tinto.rows[k][QUALITY].n)))
      && (forall k :: |tinto.rows| <= k < |y| ==>
            y[k] == Int(AgruparQualidade(branco.rows[k - |tinto.rows|][QUALITY].n)))
  {
    var merged := MergeTyped(tinto, branco);
    var df := WithCategory(merged);
    var y := Prepare(tinto, branco).1;
    assert QUALITY != QUALITY_CATEGORY;
    assert IntColumn(df, QUALITY) by {
      forall k | 0 <= k < |df.rows|
        ensures QUALITY in df.rows[k] && df.rows[k][QUALITY].Int?
      {
        assert df.rows[k][QUALITY] == merged.rows[k][QUALITY];
      }
    }
    forall k | 0 <= k < |tinto.rows|
      ensures y[k] == Int(AgruparQualidade(tinto.rows[k][QUALITY].n))
    {
      assert merged.rows[k] == tinto.rows[k][TYPE := Num(1.0)];
    }
    forall k | |tinto.rows| <= k < |y|
      ensures y[k] == Int(AgruparQualidade(branco.rows[k - |tinto.rows|][QUALITY].n))
    {
      assert merged.rows[k] == branco.rows[k - |tinto.rows|][TYPE := Num(0.0)];
    }
  }
}
