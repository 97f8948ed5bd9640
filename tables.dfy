/**
 * DataFrames as values: an ordered list of column labels and a sequence of rows,
 * each row a map from column label to cell. Row positions play the role of the
 * RangeIndex that `pd.concat(..., ignore_index=True)` produces.
 */
module Tables {

  /** A cell: the chemistry columns and the `type` flag are floats, `quality` and
      the `labels` flag are integers, the string categoriser writes text. */
  datatype Value = Num(x: real) | Int(n: int) | Str(s: string)

  type Row = map<string, Value>

  datatype Table = Table(columns: seq<string>, rows: seq<Row>)

  const QUALITY := "quality"

  /** The fixed, ordered six-column feature list of the Random Forest variants. */
  const FEATURES: seq<string> :=
    ["volatile acidity", "density", "alcohol", "total sulfur dioxide", "chlorides", "sulphates"]

  predicate Distinct(cs: seq<string>) {
    forall i, j :: 0 <= i < j < |cs| ==> cs[i] != cs[j]
  }

  function ColumnSet(cs: seq<string>): set<string> {
    set c | c in cs
  }

  /** Column labels are unique and every row has exactly the table's columns. */
  ghost predicate WellFormed(t: Table) {
    && Distinct(t.columns)
    && forall k, c {:trigger c in t.rows[k]} :: 0 <= k < |t.rows| ==> (c in t.rows[k] <==> c in t.columns)
  }

  /** Column `c` exists and holds an integer in every row. */
  predicate IntColumn(t: Table, c: string) {
    && c in t.columns
    && forall k :: 0 <= k < |t.rows| ==> c in t.rows[k] && t.rows[k][c].Int?
  }

  /** What the two wine CSV files must look like for the core to run on them. */
  ghost predicate WineTable(t: Table) {
    && WellFormed(t)
    && IntColumn(t, QUALITY)
    && forall c :: c in FEATURES ==> c in t.columns
  }

  /** The red and white sources share one header, as the two CSV files do. */
  ghost predicate WineSources(red: Table, white: Table) {
    red.columns == white.columns && WineTable(red) && WineTable(white)
  }

  lemma FeaturesDistinct()
    ensures Distinct(FEATURES) && QUALITY !in FEATURES
  {
  }

  /** `t[c]`: the column as a Series. */
  function Column(t: Table, c: string): (s: seq<Value>)
    requires WellFormed(t) && c in t.columns
    ensures |s| == |t.rows|
    ensures forall k :: 0 <= k < |s| ==> c in t.rows[k] && s[k] == t.rows[k][c]
  {
    seq(|t.rows|, k requires 0 <= k < |t.rows| => t.rows[k][c])
  }

  /** The integers of an integer column. */
  function Ints(t: Table, c: string): (qs: seq<int>)
    requires IntColumn(t, c)
    ensures |qs| == |t.rows|
    ensures forall k :: 0 <= k < |qs| ==> t.rows[k][c] == Int(qs[k])
  {
    seq(|t.rows|, k requires 0 <= k < |t.rows| => t.rows[k][c].n)
  }

  /** `pd.concat([a, b], ignore_index=True)` for two frames with the same header:
      all rows of `a` in order, then all rows of `b` in order. */
  function Concat(a: Table, b: Table): (r: Table)
    requires a.columns == b.columns
    ensures r.columns == a.columns
    ensures |r.rows| == |a.rows| + |b.rows|
    ensures r.rows[..|a.rows|] == a.rows && r.rows[|a.rows|..] == b.rows
    ensures WellFormed(a) && WellFormed(b) ==> WellFormed(r)
    ensures forall c :: IntColumn(a, c) && IntColumn(b, c) ==> IntColumn(r, c)
  {
    Table(a.columns, a.rows + b.rows)
  }

  /** `t[name] = v`: a constant column, appended at the end when it is new,
      overwritten in place when the label already exists. */
  function WithConstant(t: Table, name: string, v: Value): (r: Table)
    ensures r.columns == if name in t.columns then t.columns else t.columns + [name]
    ensures |r.rows| == |t.rows|
    ensures forall k :: 0 <= k < |r.rows| ==> r.rows[k] == t.rows[k][name := v]
    ensures WellFormed(t) ==> WellFormed(r)
  {
    Table(if name in t.columns then t.columns else t.columns + [name],
          seq(|t.rows|, k requires 0 <= k < |t.rows| => t.rows[k][name := v]))
  }

  /** `t[dst] = t[src].apply(f)` on an integer column: `dst` is overwritten when it
      exists (the in-place rewrite of `quality`) and appended otherwise. */
  function Apply(t: Table, src: string, dst: string, f: int -> Value): (r: Table)
    requires IntColumn(t, src)
    ensures r.columns == if dst in t.columns then t.columns else t.columns + [dst]
    ensures |r.rows| == |t.rows|
    ensures forall k :: 0 <= k < |r.rows| ==> r.rows[k] == t.rows[k][dst := f(t.rows[k][src].n)]
    ensures WellFormed(t) ==> WellFormed(r)
  {
    Table(if dst in t.columns then t.columns else t.columns + [dst],
          seq(|t.rows|, k requires 0 <= k < |t.rows| => t.rows[k][dst := f(t.rows[k][src].n)]))
  }

  /** `s.apply(f)` on a Series of integers. */
  function ApplySeries(s: seq<Value>, f: int -> Value): (r: seq<Value>)
    requires forall k :: 0 <= k < |s| ==> s[k].Int?
    ensures |r| == |s|
    ensures forall k :: 0 <= k < |s| ==> r[k] == f(s[k].n)
  {
    seq(|s|, k requires 0 <= k < |s| => f(s[k].n))
  }

  /** `t[cols]`: the listed columns, in the listed order, every row kept. */
  function Project(t: Table, cols: seq<string>): (r: Table)
    requires WellFormed(t)
    requires forall c :: c in cols ==> c in t.columns
    ensures r.columns == cols
    ensures |r.rows| == |t.rows|
    ensures forall k, c {:trigger c in r.rows[k]} :: 0 <= k < |r.rows| ==> (c in r.rows[k] <==> c in cols)
    ensures forall k, c :: 0 <= k < |r.rows| && c in cols ==> r.rows[k][c] == t.rows[k][c]
    ensures Distinct(cols) ==> WellFormed(r)
  {
    Table(cols, seq(|t.rows|, k requires 0 <= k < |t.rows| => map c | c in cols :: t.rows[k][c]))
  }

  /** The labels of `cols` that are not in `cs`, in their original order. */
  function Without(cols: seq<string>, cs: seq<string>): (r: seq<string>)
    ensures forall c :: c in r <==> c in cols && c !in cs
    ensures Distinct(cols) ==> Distinct(r)
    ensures |r| <= |cols|
  {
    if cols == [] then []
    else if cols[0] in cs then Without(cols[1..], cs)
    else [cols[0]] + Without(cols[1..], cs)
  }

  /** `x` occurs before `y` in `cols`. */
  ghost predicate Before(cols: seq<string>, x: string, y: string) {
    exists a, b :: 0 <= a < b < |cols| && cols[a] == x && cols[b] == y
  }

  /** An order in the tail is an order in the whole. */
  lemma BeforeInTail(cols: seq<string>, x: string, y: string)
    requires |cols| > 0 && Before(cols[1..], x, y)
    ensures Before(cols, x, y)
  {
    var a, b :| 0 <= a < b < |cols| - 1 && cols[1..][a] == x && cols[1..][b] == y;
    assert cols[a + 1] == x && cols[b + 1] == y;
  }

  /** The head comes before everything in the tail. */
  lemma HeadBefore(cols: seq<string>, y: string)
    requires |cols| > 0 && y in cols[1..]
    ensures Before(cols, cols[0], y)
  {
    var b :| 0 <= b < |cols| - 1 && cols[1..][b] == y;
    assert cols[b + 1] == y;
  }

  /** `Without` keeps the surviving labels in their original order: any two of
      them appear in `cols` in the same relative order. */
  lemma {:induction false} WithoutKeepsOrder(cols: seq<string>, cs: seq<string>)
    ensures forall i, j :: 0 <= i < j < |Without(cols, cs)| ==>
      Before(cols, Without(cols, cs)[i], Without(cols, cs)[j])
    decreases |cols|
  {
    if cols != [] {
      var r, rest := Without(cols, cs), Without(cols[1..], cs);
      WithoutKeepsOrder(cols[1..], cs);
      forall i, j | 0 <= i < j < |r| ensures Before(cols, r[i], r[j]) {
        if cols[0] in cs {
          BeforeInTail(cols, rest[i], rest[j]);
        } else if i == 0 {
          assert rest[j - 1] in rest;
          HeadBefore(cols, rest[j - 1]);
        } else {
          BeforeInTail(cols, rest[i - 1], rest[j - 1]);
        }
      }
    }
  }

  /** `t.drop(cs, axis=1)`: every other column, in order, every row kept. */
  function Drop(t: Table, cs: seq<string>): (r: Table)
    requires WellFormed(t)
    requires forall c :: c in cs ==> c in t.columns
    ensures r.columns == Without(t.columns, cs)
    ensures |r.rows| == |t.rows|
    ensures forall k, c :: 0 <= k < |r.rows| && c in t.columns && c !in cs ==>
              c in r.rows[k] && r.rows[k][c] == t.rows[k][c]
    ensures WellFormed(r)
  {
    Table(Without(t.columns, cs),
          seq(|t.rows|, k requires 0 <= k < |t.rows| => map c | c in t.rows[k] && c !in cs :: t.rows[k][c]))
  }

  /** The rows at positions `idx`, in that order (a partition of a split). */
  function Select(t: Table, idx: seq<nat>): (r: Table)
    requires forall i :: 0 <= i < |idx| ==> idx[i] < |t.rows|
    ensures r.columns == t.columns
    ensures |r.rows| == |idx|
    ensures forall i :: 0 <= i < |idx| ==> r.rows[i] == t.rows[idx[i]]
  {
    Table(t.columns, seq(|idx|, i requires 0 <= i < |idx| => t.rows[idx[i]]))
  }

  /** The entries of a Series at positions `idx`, in that order. */
  function SelectValues(s: seq<Value>, idx: seq<nat>): (r: seq<Value>)
    requires forall i :: 0 <= i < |idx| ==> idx[i] < |s|
    ensures |r| == |idx|
    ensures forall i :: 0 <= i < |idx| ==> r[i] == s[idx[i]]
  {
    seq(|idx|, i requires 0 <= i < |idx| => s[idx[i]])
  }

  /** `a[col] = va; b[col] = vb; pd.concat([a, b], ignore_index=True)`: the
      provenance-flagged merge the scripts build. */
  function ConcatWithProvenance(a: Table, b: Table, col: string, va: Value, vb: Value): (r: Table)
    requires a.columns == b.columns
    ensures r.columns == if col in a.columns then a.columns else a.columns + [col]
    ensures |r.rows| == |a.rows| + |b.rows|
    ensures forall k :: 0 <= k < |a.rows| ==> r.rows[k] == a.rows[k][col := va]
    ensures forall k :: |a.rows| <= k < |r.rows| ==> r.rows[k] == b.rows[k - |a.rows|][col := vb]
    ensures WellFormed(a) && WellFormed(b) ==> WellFormed(r)
  {
    Concat(WithConstant(a, col, va), WithConstant(b, col, vb))
  }

  /** A provenance flag written into another column leaves an integer column an integer column. */
  lemma {:induction false} ProvenanceKeepsIntColumn(a: Table, b: Table, col: string, va: Value, vb: Value, c: string)
    requires a.columns == b.columns && IntColumn(a, c) && IntColumn(b, c) && c != col
    ensures IntColumn(ConcatWithProvenance(a, b, col, va, vb), c)
  {
    var r := ConcatWithProvenance(a, b, col, va, vb);
    forall k | 0 <= k < |r.rows|
      ensures c in r.rows[k] && r.rows[k][c].Int?
    {
      if k < |a.rows| {
        assert r.rows[k] == a.rows[k][col := va];
      } else {
        assert r.rows[k] == b.rows[k - |a.rows|][col := vb];
      }
    }
  }

  /** Every column of a concatenation is the first table's column followed by the second's. */
  lemma {:induction false} ColumnOfConcat(a: Table, b: Table, c: string)
    requires a.columns == b.columns && WellFormed(a) && WellFormed(b) && c in a.columns
    ensures Column(Concat(a, b), c) == Column(a, c) + Column(b, c)
  {
    var r := Concat(a, b);
    var sr, sa, sb := Column(r, c), Column(a, c), Column(b, c);
    assert |sr| == |sa + sb|;
    forall k | 0 <= k < |sr|
      ensures sr[k] == (sa + sb)[k]
    {
      if k >= |a.rows| {
        assert r.rows[|a.rows| + (k - |a.rows|)] == b.rows[k - |a.rows|];
      }
    }
  }
}
