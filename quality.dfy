/**
 * The quality categorisers of every variant: integer threshold functions that
 * turn a raw score into one of three ordinal classes.
 */
module Quality {
  import opened Wrappers

  /** The numeric categoriser of models/preprocessing.py and models/random_forest.py:
      `2 if q >= 7 else (1 if q > 5 else 0)`; 0 is "Ruim", 1 "Média", 2 "Boa". */
  function Categoria(q: int): (c: int)
    ensures 0 <= c <= 2
    ensures c == 0 <==> q <= 5
    ensures c == 1 <==> 5 < q < 7
    ensures c == 2 <==> q >= 7
  {
    if q >= 7 then 2 else if q > 5 then 1 else 0
  }

  /** The categoriser is monotone: a better score never gets a lower class. */
  lemma CategoriaMonotone(p: int, q: int)
    requires p <= q
    ensures Categoria(p) <= Categoria(q)
  {
  }

  /** The categoriser over a sequence of scores (what `Series.apply` produces). */
  function Categorias(qs: seq<int>): (cs: seq<int>)
    ensures |cs| == |qs|
    ensures forall k :: 0 <= k < |qs| ==> cs[k] == Categoria(qs[k])
  {
    seq(|qs|, k requires 0 <= k < |qs| => Categoria(qs[k]))
  }

  /** The boundaries resolve exactly, and the test fixture's scores 5, 5, 5, 6, 8
      give 0, 0, 0, 1, 2. */
  lemma CategoriaBoundaries()
    ensures Categoria(3) == 0 && Categoria(5) == 0 && Categoria(6) == 1
    ensures Categoria(7) == 2 && Categoria(9) == 2
    ensures Categorias([5, 5, 5, 6, 8]) == [0, 0, 0, 1, 2]
    ensures Categorias([3, 9] + [5, 6, 7]) == [0, 2, 0, 1, 2]
  {
  }

  /** Re-binning already binned labels sends every label to 0: the categoriser is
      not idempotent, so the in-place rewrite of `quality` must run once only. */
  lemma {:induction false} CategoriaNotIdempotent(q: int)
    ensures Categoria(Categoria(q)) == 0
    ensures Categoria(Categoria(q)) == Categoria(q) <==> q <= 5
  {
  }

  /** The string categoriser of random_forest.py:
      `'Boa' if q >= 7 else ('Média' if q > 5 else 'Ruim')`. */
  function Rotulo(q: int): (s: string)
    ensures s == "Boa" <==> q >= 7
    ensures s == "Média" <==> 5 < q < 7
    ensures s == "Ruim" <==> q <= 5
  {
    if q >= 7 then "Boa" else if q > 5 then "Média" else "Ruim"
  }

  /** `categoria_quality` of RandomForest_v2.py, an if/elif/else chain with the
      chained comparison `5 < q < 7`. */
  function CategoriaQuality(q: int): (s: string)
    ensures s == "Boa" <==> q >= 7
    ensures s == "Média" <==> 5 < q < 7
    ensures s == "Ruim" <==> q <= 5
  {
    if q >= 7 then "Boa"
    else if 5 < q < 7 then "Média"
    else "Ruim"
  }

  /** The docstring's correspondence 0 (Ruim), 1 (Média), 2 (Boa), read backwards. */
  function Ordinal(name: string): (c: Option<int>)
    ensures c.Some? <==> name in {"Ruim", "Média", "Boa"}
    ensures c.Some? ==> 0 <= c.value <= 2
  {
    if name == "Ruim" then Some(0)
    else if name == "Média" then Some(1)
    else if name == "Boa" then Some(2)
    else None
  }

  /** The two string categorisers agree on every score, and decoding their label
      gives the numeric categoriser's class: one boundary policy everywhere. */
  lemma {:induction false} StringCategorisersAgree(q: int)
    ensures Rotulo(q) == CategoriaQuality(q)
    ensures Ordinal(CategoriaQuality(q)) == Some(Categoria(q))
  {
  }

  /** `agrupar_qualidade` of gradient_boosting_agrupado.py: 4 and below are 0,
      5 and 6 are 1, 7 and above are 2. */
  function AgruparQualidade(qualidade: int): (g: int)
    ensures 0 <= g <= 2
    ensures g == 0 <==> qualidade <= 4
    ensures g == 1 <==> 5 <= qualidade <= 6
    ensures g == 2 <==> qualidade >= 7
  {
    if qualidade <= 4 then 0
    else if qualidade <= 6 then 1
    else 2
  }

  lemma AgruparMonotone(p: int, q: int)
    requires p <= q
    ensures AgruparQualidade(p) <= AgruparQualidade(q)
  {
  }

  /** The grouped policy differs from the numeric categoriser at exactly one score:
      5, which it calls "Médio" (1) where the other calls it "Ruim" (0). */
  lemma {:induction false} AgruparDiffersOnlyAtFive(q: int)
    ensures AgruparQualidade(q) == Categoria(q) <==> q != 5
    ensures AgruparQualidade(5) == 1 && Categoria(5) == 0
  {
  }
}
