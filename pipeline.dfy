/**
 * The staged pipeline shared by `Preprocessing` and the two `Modelo` variants,
 * as a pure state machine: a `State` holds the optional fields the classes keep,
 * each stage is a function from state to state, and the auto-invoking variants
 * run the earlier stages first when a field is still `None`. The classes tie each
 * method to one of these functions; the lemmas here are about whole runs.
 */
module Pipeline {
  import opened Wrappers
  import opened Tables
  import opened Quality
  import L = Learning

  /** The stage methods, in the order the classes define them. */
  datatype Stage = Read | Join | Categorise | Select | Split | Fit | Save

  /** The two forms of `apply_categoria`: integer classes (models/) or text labels (random_forest.py). */
  datatype Labelling = Numeric | Text

  /** The value `apply_categoria` writes over a raw score. Only the numeric form
      writes an integer, and both name the same class out of three. */
  function Label(l: Labelling, q: int): (v: Value)
    ensures v.Int? <==> l == Numeric
    ensures v.Int? ==> v.n == Categoria(q)
    ensures v.Str? ==> v.s == Rotulo(q) && Ordinal(v.s) == Some(Categoria(q))
  {
    StringCategorisersAgree(q);
    match l
    case Numeric => Int(Categoria(q))
    case Text => Str(Rotulo(q))
  }

  function Labeller(l: Labelling): int -> Value {
    q => Label(l, q)
  }

  /** What the environment gives a pipeline: the two CSV files' contents, the
      labelling, and the library's split. */
  datatype Env = Env(red: Table, white: Table, labelling: Labelling, split: L.Splitter)

  ghost predicate EnvOk(e: Env) {
    WineSources(e.red, e.white) && L.SplitterContract(e.split)
  }

  /** Rows of the merged table. */
  function Rows(e: Env): nat {
    |e.red.rows| + |e.white.rows|
  }

  /** The red rows followed by the white rows, before categorisation. */
  function Merged(e: Env): Table
    requires e.red.columns == e.white.columns
  {
    Concat(e.red, e.white)
  }

  /** The optional fields of a pipeline object, the training data its estimator
      was last fitted on, and (for the proofs) the stages called so far. */
  datatype State = State(
    dfRed: Option<Table>, dfWhite: Option<Table>, data: Option<Table>,
    X: Option<Table>, y: Option<seq<Value>>,
    XTrain: Option<Table>, XTest: Option<Table>, yTrain: Option<seq<Value>>, yTest: Option<seq<Value>>,
    fittedOn: Option<(Table, seq<Value>)>,
    trace: seq<Stage>)

  /** Every field unset, as `Modelo.__init__` leaves it; the estimator is whatever was passed in. */
  function Fresh(fittedOn: Option<(Table, seq<Value>)>): (s: State)
    ensures s.dfRed.None? && s.dfWhite.None? && s.data.None? && s.X.None? && s.y.None?
    ensures s.XTrain.None? && s.XTest.None? && s.yTrain.None? && s.yTest.None?
    ensures s.fittedOn == fittedOn && s.trace == []
  {
    State(None, None, None, None, None, None, None, None, None, fittedOn, [])
  }

  /** A merged table as the stages leave it: the sources' header, one row per source row. */
  ghost predicate DataOk(t: Table, e: Env) {
    WellFormed(t) && t.columns == e.red.columns && |t.rows| == Rows(e)
  }

  /** What the stage methods keep true of the fields. `quality` stays an integer
      column until it is categorised, and for good under the numeric labelling. */
  ghost predicate Inv(s: State, e: Env) {
    && (s.dfRed.Some? ==> s.dfRed.value == e.red)
    && (s.dfWhite.Some? ==> s.dfWhite.value == e.white)
    && (s.data.Some? ==> DataOk(s.data.value, e))
    && (s.data.Some? && s.y.None? ==> IntColumn(s.data.value, QUALITY))
    && (s.data.Some? && e.labelling == Numeric ==> IntColumn(s.data.value, QUALITY))
    && (s.X.Some? ==> s.X.value.columns == FEATURES && |s.X.value.rows| == Rows(e))
    && (s.y.Some? ==> |s.y.value| == Rows(e))
  }

  lemma FreshInv(fittedOn: Option<(Table, seq<Value>)>, e: Env)
    ensures Inv(Fresh(fittedOn), e)
  {
  }

  // ---------------------------------------------------------------- stages

  /** `leitura_dataset`: both frames read, whatever was there before. */
  function ReadStep(s: State, e: Env): (r: State)
    requires Inv(s, e)
    ensures Inv(r, e)
    ensures r.dfRed == Some(e.red) && r.dfWhite == Some(e.white) && r.trace == s.trace + [Read]
    ensures r.(dfRed := s.dfRed, dfWhite := s.dfWhite, trace := s.trace) == s
  {
    s.(dfRed := Some(e.red), dfWhite := Some(e.white), trace := s.trace + [Read])
  }

  /** `data = pd.concat([df_red, df_white], ignore_index=True)` once both frames are set. */
  function JoinStep(s: State, e: Env): (r: State)
    requires Inv(s, e) && EnvOk(e) && s.dfRed.Some? && s.dfWhite.Some?
    ensures Inv(r, e)
    ensures r.data == Some(Merged(e)) && r.trace == s.trace + [Join]
    ensures |r.data.value.rows| == |e.red.rows| + |e.white.rows|
    ensures forall k :: 0 <= k < |e.red.rows| ==> r.data.value.rows[k] == e.red.rows[k]
    ensures forall k :: 0 <= k < |e.white.rows| ==> r.data.value.rows[|e.red.rows| + k] == e.white.rows[k]
    ensures r.(data := s.data, trace := s.trace) == s
  {
    s.(data := Some(Concat(s.dfRed.value, s.dfWhite.value)), trace := s.trace + [Join])
  }

  /** `data['quality'] = data['quality'].apply(...)` followed by `y = data['quality']`:
      the score column is overwritten in place and `y` is the rewritten column. */
  function CategoriseStep(s: State, e: Env): (r: State)
    requires Inv(s, e) && EnvOk(e) && s.data.Some? && IntColumn(s.data.value, QUALITY)
    ensures Inv(r, e)
    ensures r.data.Some? && r.y.Some? && r.trace == s.trace + [Categorise]
    ensures r.data.value.columns == s.data.value.columns
    ensures |r.data.value.rows| == |s.data.value.rows| == |r.y.value|
    ensures forall k :: 0 <= k < |r.y.value| ==>
              r.y.value[k] == Label(e.labelling, s.data.value.rows[k][QUALITY].n)
    ensures forall k :: 0 <= k < |r.y.value| ==> r.data.value.rows[k] == s.data.value.rows[k][QUALITY := r.y.value[k]]
    ensures r.y == Some(Column(r.data.value, QUALITY))
    ensures r.(data := s.data, y := s.y, trace := s.trace) == s
  {
    var d := Apply(s.data.value, QUALITY, QUALITY, Labeller(e.labelling));
    s.(data := Some(d), y := Some(Column(d, QUALITY)), trace := s.trace + [Categorise])
  }

  /** `X = data[FEATURES]; y = data['quality']`: both cut from the same table, so
      row i of `X` and entry i of `y` describe the same wine. */
  function SelectStep(s: State, e: Env): (r: State)
    requires Inv(s, e) && EnvOk(e) && s.data.Some?
    ensures Inv(r, e)
    ensures r.X.Some? && r.y.Some? && r.trace == s.trace + [Select]
    ensures r.X.value.columns == FEATURES
    ensures |r.X.value.rows| == |r.y.value| == |s.data.value.rows|
    ensures forall k, c :: 0 <= k < |r.X.value.rows| ==> (c in r.X.value.rows[k] <==> c in FEATURES)
    ensures forall k, c :: 0 <= k < |s.data.value.rows| && c in FEATURES ==> c in s.data.value.rows[k]
    ensures forall k, c :: 0 <= k < |r.X.value.rows| && c in FEATURES ==> r.X.value.rows[k][c] == s.data.value.rows[k][c]
    ensures forall k :: 0 <= k < |r.y.value| ==> r.y.value[k] == s.data.value.rows[k][QUALITY]
    ensures r.(X := s.X, y := s.y, trace := s.trace) == s
  {
    var d := s.data.value;
    s.(X := Some(Project(d, FEATURES)), y := Some(Column(d, QUALITY)), trace := s.trace + [Select])
  }

  /** `X_train, X_test, y_train, y_test = train_test_split(X, y, ..., stratify=y)`. */
  function SplitStep(s: State, e: Env, testSize: real, randomState: int): (r: State)
    requires Inv(s, e) && EnvOk(e) && s.X.Some? && s.y.Some?
    ensures Inv(r, e)
    ensures r.XTrain.Some? && r.XTest.Some? && r.yTrain.Some? && r.yTest.Some? && r.trace == s.trace + [Split]
    ensures var p := L.TrainTestSplit(e.split, s.X.value, s.y.value, testSize, randomState);
      r.XTrain == Some(p.XTrain) && r.XTest == Some(p.XTest) && r.yTrain == Some(p.yTrain) && r.yTest == Some(p.yTest)
    ensures |r.yTrain.value| + |r.yTest.value| == Rows(e)
    ensures r.(XTrain := s.XTrain, XTest := s.XTest, yTrain := s.yTrain, yTest := s.yTest, trace := s.trace) == s
  {
    var p := L.TrainTestSplit(e.split, s.X.value, s.y.value, testSize, randomState);
    s.(XTrain := Some(p.XTrain), XTest := Some(p.XTest), yTrain := Some(p.yTrain), yTest := Some(p.yTest),
       trace := s.trace + [Split])
  }

  /** `modelo.fit(X_train, y_train)`. */
  function FitStep(s: State): (r: State)
    requires s.XTrain.Some? && s.yTrain.Some?
    ensures r.fittedOn == Some((s.XTrain.value, s.yTrain.value)) && r.trace == s.trace + [Fit]
    ensures r.(fittedOn := s.fittedOn, trace := s.trace) == s
  {
    s.(fittedOn := Some((s.XTrain.value, s.yTrain.value)), trace := s.trace + [Fit])
  }

  /** `joblib.dump(modelo, filepath)`: nothing of the pipeline changes. */
  function SaveStep(s: State): (r: State)
    ensures r.trace == s.trace + [Save] && r.(trace := s.trace) == s
  {
    s.(trace := s.trace + [Save])
  }

  lemma FitStepInv(s: State, e: Env)
    requires Inv(s, e) && s.XTrain.Some? && s.yTrain.Some?
    ensures Inv(FitStep(s), e) && Inv(SaveStep(s), e)
  {
  }

  // ------------------------------------------------- auto-invoking stages

  /** `join_datasets` of the `Modelo` variants: reads first when either frame is `None`. */
  function LazyJoin(s: State, e: Env): (r: State)
    requires Inv(s, e) && EnvOk(e)
    ensures Inv(r, e)
    ensures r.data == Some(Merged(e))
    ensures r.trace == s.trace + (if s.dfRed.None? || s.dfWhite.None? then [Read] else []) + [Join]
    ensures s.dfRed.Some? && s.dfWhite.Some? ==> r == JoinStep(s, e)
  {
    var s1 := if s.dfRed.None? || s.dfWhite.None? then ReadStep(s, e) else s;
    JoinStep(s1, e)
  }

  /** Whether `apply_categoria` can run: once the text labels are written, `q >= 7`
      compares a string with an integer and Python raises TypeError. */
  ghost predicate CanCategorise(s: State) {
    s.data.None? || IntColumn(s.data.value, QUALITY)
  }

  /** `apply_categoria` of the `Modelo` variants: joins first when `data` is `None`. */
  function LazyCategorise(s: State, e: Env): (r: State)
    requires Inv(s, e) && EnvOk(e) && CanCategorise(s)
    ensures Inv(r, e)
    ensures r.y.Some? && r.data.Some? && r.y == Some(Column(r.data.value, QUALITY))
    ensures r.trace == s.trace + (if s.data.None? then LazyJoin(s, e).trace[|s.trace|..] else []) + [Categorise]
    ensures s.data.Some? ==> r == CategoriseStep(s, e)
  {
    var s1 := if s.data.None? then LazyJoin(s, e) else s;
    CategoriseStep(s1, e)
  }

  /** `feature_selection` of the `Modelo` variants: joins when `data` is `None`,
      categorises when `y` is `None`, then cuts `X` and `y`. */
  function LazySelect(s: State, e: Env): (r: State)
    requires Inv(s, e) && EnvOk(e)
    ensures Inv(r, e)
    ensures r.X.Some? && r.y.Some? && r.data.Some?
    ensures r.X == Some(Project(r.data.value, FEATURES)) && r.y == Some(Column(r.data.value, QUALITY))
    ensures |s.trace| < |r.trace| && r.trace[..|s.trace|] == s.trace && r.trace[|r.trace| - 1] == Select
    ensures s.data.Some? && s.y.Some? ==> r == SelectStep(s, e)
  {
    var s1 := if s.data.None? then LazyJoin(s, e) else s;
    var s2 := if s1.y.None? then LazyCategorise(s1, e) else s1;
    SelectStep(s2, e)
  }

  /** `split_dados` of the `Modelo` variants: selects first when `X` or `y` is `None`. */
  function LazySplit(s: State, e: Env, testSize: real, randomState: int): (r: State)
    requires Inv(s, e) && EnvOk(e)
    ensures Inv(r, e)
    ensures r.XTrain.Some? && r.XTest.Some? && r.yTrain.Some? && r.yTest.Some?
    ensures |r.yTrain.value| + |r.yTest.value| == Rows(e)
    ensures |s.trace| < |r.trace| && r.trace[..|s.trace|] == s.trace && r.trace[|r.trace| - 1] == Split
    ensures s.X.Some? && s.y.Some? ==> r == SplitStep(s, e, testSize, randomState)
  {
    var s1 := if s.X.None? || s.y.None? then LazySelect(s, e) else s;
    SplitStep(s1, e, testSize, randomState)
  }

  /** `apply_model` of the `Modelo` variants: splits with the defaults first when
      `X_train` or `y_train` is `None`, then fits on the training partition. */
  function LazyFit(s: State, e: Env): (r: State)
    requires Inv(s, e) && EnvOk(e)
    ensures Inv(r, e)
    ensures r.XTrain.Some? && r.yTrain.Some? && r.fittedOn == Some((r.XTrain.value, r.yTrain.value))
    ensures |s.trace| < |r.trace| && r.trace[..|s.trace|] == s.trace && r.trace[|r.trace| - 1] == Fit
    ensures s.XTrain.Some? && s.yTrain.Some? ==> r == FitStep(s)
  {
    var s1 := if s.XTrain.None? || s.yTrain.None? then LazySplit(s, e, 0.2, 42) else s;
    FitStep(s1)
  }

  /** The state `model_predict` leaves: split with the defaults when `X_test` is `None`. */
  function LazyPredictState(s: State, e: Env): (r: State)
    requires Inv(s, e) && EnvOk(e)
    ensures Inv(r, e) && r.XTest.Some?
    ensures s.XTest.Some? ==> r == s
    ensures r.fittedOn == s.fittedOn
  {
    if s.XTest.None? then LazySplit(s, e, 0.2, 42) else s
  }

  /** When `data` is unset, `apply_categoria` categorises the freshly joined
      merge: `data` is the merge with each score overwritten by its label, and
      `y` is the label of each raw score, red rows first. */
  lemma {:induction false} LazyCategoriseJoins(s: State, e: Env)
    requires Inv(s, e) && EnvOk(e) && s.data.None?
    ensures var r := LazyCategorise(s, e);
      && r == CategoriseStep(LazyJoin(s, e), e)
      && |r.y.value| == |r.data.value.rows| == Rows(e)
      && (forall k :: 0 <= k < Rows(e) ==> r.y.value[k] == Label(e.labelling, RawQualities(e)[k]))
      && (forall k :: 0 <= k < Rows(e) ==> r.data.value.rows[k] == Merged(e).rows[k][QUALITY := r.y.value[k]])
  {
    var s1 := LazyJoin(s, e);
    var r := CategoriseStep(s1, e);
    var qs := RawQualities(e);
    forall k | 0 <= k < Rows(e)
      ensures r.y.value[k] == Label(e.labelling, qs[k])
    {
      assert s1.data.value.rows[k][QUALITY] == Int(qs[k]);
    }
  }

  /** When `y` is unset, `feature_selection` categorises before it selects, so
      its `y` holds labels and not raw scores: the labels of the scores in `data`
      when `data` was set, of the merged raw scores otherwise. */
  lemma {:induction false} LazySelectCategorises(s: State, e: Env)
    requires Inv(s, e) && EnvOk(e) && s.y.None?
    ensures var r := LazySelect(s, e);
      && r == SelectStep(LazyCategorise(s, e), e)
      && |r.y.value| == Rows(e)
      && (s.data.Some? ==> forall k :: 0 <= k < Rows(e) ==>
            r.y.value[k] == Label(e.labelling, s.data.value.rows[k][QUALITY].n))
      && (s.data.None? ==> forall k :: 0 <= k < Rows(e) ==>
            r.y.value[k] == Label(e.labelling, RawQualities(e)[k]))
  {
    var s2 := LazyCategorise(s, e);
    var r := SelectStep(s2, e);
    if s.data.None? {
      LazyCategoriseJoins(s, e);
    }
    forall k | 0 <= k < Rows(e)
      ensures r.y.value[k] == s2.y.value[k]
    {
      assert r.y.value[k] == s2.data.value.rows[k][QUALITY];
    }
  }

  /** When `X` or `y` is unset, `split_dados` splits exactly what `feature_selection`
      produces from the same state. */
  lemma {:induction false} LazySplitSelects(s: State, e: Env, testSize: real, randomState: int)
    requires Inv(s, e) && EnvOk(e) && (s.X.None? || s.y.None?)
    ensures var m := LazySelect(s, e);
      var p := L.TrainTestSplit(e.split, m.X.value, m.y.value, testSize, randomState);
      var r := LazySplit(s, e, testSize, randomState);
      && r == SplitStep(m, e, testSize, randomState)
      && r.XTrain == Some(p.XTrain) && r.XTest == Some(p.XTest) && r.yTrain == Some(p.yTrain) && r.yTest == Some(p.yTest)
  {
  }

  /** When the training partition is unset, `apply_model` fits on the training
      partition of the default split, `test_size=0.2` and `random_state=42`. */
  lemma {:induction false} LazyFitSplits(s: State, e: Env)
    requires Inv(s, e) && EnvOk(e) && (s.XTrain.None? || s.yTrain.None?)
    ensures var m := LazySplit(s, e, 0.2, 42);
      var r := LazyFit(s, e);
      && r == FitStep(m)
      && r.fittedOn == Some((m.XTrain.value, m.yTrain.value))
  {
  }

  /** When `X_test` is unset, `model_predict` leaves the default split of the
      current state, `test_size=0.2` and `random_state=42`: a split of the current
      `X` and `y` when both are set, of what selection produces otherwise. */
  lemma {:induction false} LazyPredictSplits(s: State, e: Env)
    requires Inv(s, e) && EnvOk(e) && s.XTest.None?
    ensures LazyPredictState(s, e) == LazySplit(s, e, 0.2, 42)
    ensures s.X.Some? && s.y.Some? ==> LazyPredictState(s, e) == SplitStep(s, e, 0.2, 42)
    ensures s.X.Some? && s.y.Some? ==>
      LazyPredictState(s, e).XTest == Some(L.TrainTestSplit(e.split, s.X.value, s.y.value, 0.2, 42).XTest)
    ensures s.X.None? || s.y.None? ==>
      LazyPredictState(s, e) == SplitStep(LazySelect(s, e), e, 0.2, 42)
  {
    if s.X.None? || s.y.None? {
      LazySplitSelects(s, e, 0.2, 42);
    }
  }

  // ---------------------------------------------------------- whole runs

  /** `Preprocessing.preprocess`: read, join, categorise, select, split, each once. */
  function PreprocessRun(s: State, e: Env, testSize: real, randomState: int): (r: State)
    requires Inv(s, e) && EnvOk(e)
    ensures Inv(r, e)
  {
    var s1 := ReadStep(s, e);
    var s2 := JoinStep(s1, e);
    var s3 := CategoriseStep(s2, e);
    var s4 := SelectStep(s3, e);
    SplitStep(s4, e, testSize, randomState)
  }

  /** `Modelo.train` of models/random_forest.py: the seven stage calls in order. */
  function TrainRun(s: State, e: Env): (r: State)
    requires Inv(s, e) && EnvOk(e)
    ensures Inv(r, e)
  {
    var s1 := ReadStep(s, e);
    var s2 := LazyJoin(s1, e);
    var s3 := LazyCategorise(s2, e);
    var s4 := LazySelect(s3, e);
    var s5 := LazySplit(s4, e, 0.2, 42);
    var s6 := LazyFit(s5, e);
    SaveStep(s6)
  }
  // ------------------------------------------------------------- lemmas

  /** The raw scores of the merged table, red first. */
  function RawQualities(e: Env): (qs: seq<int>)
    requires WineSources(e.red, e.white)
    ensures |qs| == Rows(e)
    ensures forall k :: 0 <= k < |e.red.rows| ==> e.red.rows[k][QUALITY] == Int(qs[k])
    ensures forall k :: 0 <= k < |e.white.rows| ==> e.white.rows[k][QUALITY] == Int(qs[|e.red.rows| + k])
  {
    Ints(Merged(e), QUALITY)
  }

  /** Every entry is one of the classes 0, 1 and 2. */
  predicate ClassLabels(ys: seq<Value>) {
    forall k :: 0 <= k < |ys| ==> ys[k].Int? && 0 <= ys[k].n <= 2
  }

  /** How many times a stage occurs in a trace. */
  function Calls(trace: seq<Stage>, st: Stage): nat {
    multiset(trace)[st]
  }

  /** `preprocess` calls the five stages in order, so `apply_categoria` runs once. */
  lemma PreprocessOrder(s: State, e: Env, testSize: real, randomState: int)
    requires Inv(s, e) && EnvOk(e)
    ensures var r := PreprocessRun(s, e, testSize, randomState);
      && r.trace == s.trace + [Read, Join, Categorise, Select, Split]
      && Calls(r.trace[|s.trace|..], Categorise) == 1
  {
    var r := PreprocessRun(s, e, testSize, randomState);
    assert r.trace[|s.trace|..] == [Read, Join, Categorise, Select, Split];
  }

  /** Whatever state `preprocess` starts from, `y` ends as the numeric class of each
      raw score of the merged table, in order, and both label partitions hold only
      the classes 0, 1 and 2: the scores are re-read, so they are binned once. */
  lemma {:induction false} PreprocessLabels(s: State, e: Env, testSize: real, randomState: int)
    requires Inv(s, e) && EnvOk(e) && e.labelling == Numeric
    ensures var r := PreprocessRun(s, e, testSize, randomState);
      && r.y.Some? && |r.y.value| == Rows(e)
      && (forall k :: 0 <= k < Rows(e) ==> r.y.value[k] == Int(Categoria(RawQualities(e)[k])))
      && ClassLabels(r.yTrain.value) && ClassLabels(r.yTest.value)
  {
    var s1 := ReadStep(s, e);
    var s2 := JoinStep(s1, e);
    var s3 := CategoriseStep(s2, e);
    var s4 := SelectStep(s3, e);
    var r := SplitStep(s4, e, testSize, randomState);
    var qs := RawQualities(e);
    forall k | 0 <= k < Rows(e)
      ensures s3.y.value[k] == Int(Categoria(qs[k]))
    {
      assert s2.data.value.rows[k][QUALITY] == Int(qs[k]);
    }
    assert s4.y == s3.y by {
      forall k | 0 <= k < |s4.y.value| ensures s4.y.value[k] == s3.y.value[k] { }
    }
    assert ClassLabels(s4.y.value);
    SplitKeepsLabels(s4, e, testSize, randomState);
  }

  /** The partitions only hold entries of `y`, so class labels stay class labels. */
  lemma {:induction false} SplitKeepsLabels(s: State, e: Env, testSize: real, randomState: int)
    requires Inv(s, e) && EnvOk(e) && s.X.Some? && s.y.Some? && ClassLabels(s.y.value)
    ensures var r := SplitStep(s, e, testSize, randomState);
      ClassLabels(r.yTrain.value) && ClassLabels(r.yTest.value)
  {
    var r := SplitStep(s, e, testSize, randomState);
    var sp := e.split(testSize, randomState, s.y.value);
    assert L.IsPartition(sp, |s.y.value|);
    forall i | 0 <= i < |r.yTrain.value| ensures r.yTrain.value[i].Int? && 0 <= r.yTrain.value[i].n <= 2 {
      assert r.yTrain.value[i] == s.y.value[sp.train[i]];
    }
    forall i | 0 <= i < |r.yTest.value| ensures r.yTest.value[i].Int? && 0 <= r.yTest.value[i].n <= 2 {
      assert r.yTest.value[i] == s.y.value[sp.test[i]];
    }
  }

  /** Calling the numeric `apply_categoria` a second time re-bins the classes 0, 1, 2
      as scores, all of which are at most 5: every label becomes 0. */
  lemma {:induction false} CategoriseTwice(s: State, e: Env)
    requires Inv(s, e) && EnvOk(e) && e.labelling == Numeric && s.data.Some?
    ensures var s1 := CategoriseStep(s, e);
      var s2 := CategoriseStep(s1, e);
      && |s2.y.value| == Rows(e)
      && forall k :: 0 <= k < |s2.y.value| ==> s2.y.value[k] == Int(0)
  {
    var s1 := CategoriseStep(s, e);
    var s2 := CategoriseStep(s1, e);
    forall k | 0 <= k < |s2.y.value| ensures s2.y.value[k] == Int(0) {
      var q := s.data.value.rows[k][QUALITY].n;
      assert s1.data.value.rows[k][QUALITY] == Int(Categoria(q));
      CategoriaNotIdempotent(q);
    }
  }

  /** Under the text labelling a categorised table refuses a second `apply_categoria`
      (its scores are strings), as soon as there is a row. */
  lemma {:induction false} TextCategoriseOnce(s: State, e: Env)
    requires Inv(s, e) && EnvOk(e) && e.labelling == Text && s.data.Some? && IntColumn(s.data.value, QUALITY)
    requires Rows(e) > 0
    ensures !CanCategorise(CategoriseStep(s, e))
  {
    var r := CategoriseStep(s, e);
    assert r.data.value.rows[0][QUALITY] == r.y.value[0];
  }

  /** `Modelo.train` calls the seven stages in order and none of them re-runs an
      earlier stage: categorisation happens exactly once. */
  lemma {:induction false} TrainOrder(s: State, e: Env)
    requires Inv(s, e) && EnvOk(e)
    ensures var r := TrainRun(s, e);
      && r.trace == s.trace + [Read, Join, Categorise, Select, Split, Fit, Save]
      && Calls(r.trace[|s.trace|..], Categorise) == 1
      && r.fittedOn == Some((r.XTrain.value, r.yTrain.value))
  {
    var s3 := LazyCategorise(LazyJoin(ReadStep(s, e), e), e);
    TrainHead(s, e);
    TrainTail(s3, e);
    var r := TrainRun(s, e);
    assert r.trace[|s.trace|..] == [Read, Join, Categorise, Select, Split, Fit, Save];
  }

  /** The first three calls of `Modelo.train`: read, then join and categorise
      without auto-invoking anything. */
  lemma {:induction false} TrainHead(s: State, e: Env)
    requires Inv(s, e) && EnvOk(e)
    ensures var s3 := LazyCategorise(LazyJoin(ReadStep(s, e), e), e);
      s3.trace == s.trace + [Read, Join, Categorise] && s3.data.Some? && s3.y.Some?
  {
    var s1 := ReadStep(s, e);
    var s2 := LazyJoin(s1, e);
    assert s2.trace == s1.trace + [Join];
  }

  /** The last four calls of `Modelo.train` once `data` and `y` are set: none of
      them auto-invokes an earlier stage. */
  lemma {:induction false} TrainTail(s3: State, e: Env)
    requires Inv(s3, e) && EnvOk(e) && s3.data.Some? && s3.y.Some?
    ensures var r := SaveStep(LazyFit(LazySplit(LazySelect(s3, e), e, 0.2, 42), e));
      && r.trace == s3.trace + [Select, Split, Fit, Save]
      && r.fittedOn == Some((r.XTrain.value, r.yTrain.value))
  {
    var s4 := LazySelect(s3, e);
    var s5 := LazySplit(s4, e, 0.2, 42);
    var s6 := LazyFit(s5, e);
    assert s4.trace == s3.trace + [Select];
    assert s5.trace == s4.trace + [Split];
    assert s6.trace == s5.trace + [Fit];
  }

  /** `Modelo.train` fits on labels of the classes 0, 1 and 2, which are the numeric
      classes of the raw scores. */
  lemma {:induction false} TrainLabels(s: State, e: Env)
    requires Inv(s, e) && EnvOk(e) && e.labelling == Numeric
    ensures var r := TrainRun(s, e);
      && (forall k :: 0 <= k < Rows(e) ==> r.y.value[k] == Int(Categoria(RawQualities(e)[k])))
      && ClassLabels(r.fittedOn.value.1) && ClassLabels(r.yTest.value)
  {
    var s1 := ReadStep(s, e);
    var s2 := LazyJoin(s1, e);
    var s3 := LazyCategorise(s2, e);
    var s4 := LazySelect(s3, e);
    assert s4 == SelectStep(s3, e);
    var s5 := LazySplit(s4, e, 0.2, 42);
    assert s5 == SplitStep(s4, e, 0.2, 42);
    var qs := RawQualities(e);
    assert s3 == CategoriseStep(s2, e);
    forall k | 0 <= k < Rows(e)
      ensures s4.y.value[k] == Int(Categoria(qs[k]))
    {
      assert s2.data.value.rows[k][QUALITY] == Int(qs[k]);
      assert s4.y.value[k] == s3.data.value.rows[k][QUALITY];
    }
    SplitKeepsLabels(s4, e, 0.2, 42);
  }

  /** From a fresh `Modelo`, `feature_selection` alone reads, joins and categorises
      first, and returns the six features of the merged table. */
  lemma {:induction false} SelectFromFresh(fittedOn: Option<(Table, seq<Value>)>, e: Env)
    requires EnvOk(e)
    ensures var r := LazySelect(Fresh(fittedOn), e);
      && r.trace == [Read, Join, Categorise, Select]
      && r.X.value.columns == FEATURES && |r.X.value.rows| == Rows(e)
      && forall k, c :: 0 <= k < Rows(e) && c in FEATURES ==> c in Merged(e).rows[k] && r.X.value.rows[k][c] == Merged(e).rows[k][c]
  {
    var s := Fresh(fittedOn);
    var s1 := LazyJoin(s, e);
    var s2 := LazyCategorise(s1, e);
    assert s2 == CategoriseStep(s1, e);
    var r := SelectStep(s2, e);
    FeaturesDistinct();
    forall k, c | 0 <= k < Rows(e) && c in FEATURES
      ensures c in Merged(e).rows[k] && r.X.value.rows[k][c] == Merged(e).rows[k][c]
    {
      assert c != QUALITY;
      assert s2.data.value.rows[k] == s1.data.value.rows[k][QUALITY := s2.y.value[k]];
    }
  }

  /** From a fresh `Modelo`, `apply_model` alone runs every earlier stage once, with
      the default split, and fits on its training partition. */
  lemma {:induction false} FitFromFresh(fittedOn: Option<(Table, seq<Value>)>, e: Env)
    requires EnvOk(e)
    ensures var r := LazyFit(Fresh(fittedOn), e);
      && r.trace == [Read, Join, Categorise, Select, Split, Fit]
      && r.fittedOn.Some? && |r.fittedOn.value.1| + |r.yTest.value| == Rows(e)
  {
    var s := Fresh(fittedOn);
    var s1 := LazySplit(s, e, 0.2, 42);
    var s0 := LazySelect(s, e);
    assert s1 == SplitStep(s0, e, 0.2, 42);
    SelectFromFresh(fittedOn, e);
  }

  /** From a fresh `Modelo`, `model_predict` splits but nothing was fitted. */
  lemma {:induction false} PredictFromFresh(e: Env)
    requires EnvOk(e)
    ensures var r := LazyPredictState(Fresh(None), e);
      r.fittedOn.None? && r.trace == [Read, Join, Categorise, Select, Split]
  {
    var s := Fresh(None);
    SelectFromFresh(None, e);
    assert LazySplit(s, e, 0.2, 42) == SplitStep(LazySelect(s, e), e, 0.2, 42);
  }
}
