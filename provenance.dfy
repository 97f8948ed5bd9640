/**
 * The provenance-flagged merges of the stand-alone scripts: a constant column is
 * added to each source frame in place, then the frames are concatenated, red
 * first, with a fresh row index.
 */
module Provenance {
  import opened Tables

  const LABELS := "labels"
  const TYPE := "type"

  /** `df_red['labels'] = 0; df_white['labels'] = 1; pd.concat([df_red, df_white], ignore_index=True)`. */
  function MergeLabelled(red: Table, white: Table): (data: Table)
    requires WineSources(red, white)
    ensures WellFormed(data) && IntColumn(data, QUALITY)
    ensures data.columns == if LABELS in red.columns then red.columns else red.columns + [LABELS]
    ensures |data.rows| == |red.rows| + |white.rows|
    ensures forall k :: 0 <= k < |red.rows| ==> data.rows[k] == red.rows[k][LABELS := Int(0)]
    ensures forall k :: |red.rows| <= k < |data.rows| ==> data.rows[k] == white.rows[k - |red.rows|][LABELS := Int(1)]
  {
    ProvenanceKeepsIntColumn(red, white, LABELS, Int(0), Int(1), QUALITY);
    ConcatWithProvenance(red, white, LABELS, Int(0), Int(1))
  }

  /** `tinto['type'] = float(1); branco['type'] = float(0); pd.concat([tinto, branco], ignore_index=True)`. */
  function MergeTyped(tinto: Table, branco: Table): (df: Table)
    requires WineSources(tinto, branco)
    ensures WellFormed(df) && IntColumn(df, QUALITY)
    ensures df.columns == if TYPE in tinto.columns then tinto.columns else tinto.columns + [TYPE]
    ensures |df.rows| == |tinto.rows| + |branco.rows|
    ensures forall k :: 0 <= k < |tinto.rows| ==> df.rows[k] == tinto.rows[k][TYPE := Num(1.0)]
    ensures forall k :: |tinto.rows| <= k < |df.rows| ==> df.rows[k] == branco.rows[k - |tinto.rows|][TYPE := Num(0.0)]
  {
    ProvenanceKeepsIntColumn(tinto, branco, TYPE, Num(1.0), Num(0.0), QUALITY);
    ConcatWithProvenance(tinto, branco, TYPE, Num(1.0), Num(0.0))
  }
}
