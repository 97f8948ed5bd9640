# Wine-quality data preparation, modelled in Dafny

This project models the data-preparation core of the po-235 wine-quality
classifier. The red and white wine tables are read, concatenated (red first),
optionally flagged with a provenance column, and binned into three quality
classes. They are then projected onto features, split into training and test
partitions, and handed to an estimator.

Tables are values: a list of column labels plus a sequence of rows, each row a map
from label to cell (`Tables`). The categorisers are integer threshold functions
(`Quality`). `train_test_split`, `fit`, `predict` and SMOTE are opaque parameters
with contracts (`Learning`, `XgboostingTest`).

The four stateful classes are modelled as Dafny classes with the same optional
fields as the source:

- `Preprocessing` of models/preprocessing.py (`ModelsPreprocessing`);
- the auto-invoking `Modelo` of models/random_forest.py (`ModelsRandomForest`);
- the auto-invoking `Modelo` of random_forest.py (`RandomForestScript`);
- the `Modelo` of models/model.py (`ModelsModel`), which drives a `Preprocessing`.

Each method's postcondition ties the object's new fields to a pure stage function
of its old fields (`Pipeline`). The lemmas about whole runs are proved on those
functions:

- the stage order;
- `apply_categoria` runs exactly once in `train` and `preprocess`;
- a second call would re-bin every label to 0;
- the labels that reach `fit` are the classes 0, 1 and 2 of the raw scores.

The `Modelo` of models/model.py (`ModelsModel`) drives a `Preprocessing`. It
refuses to fit unprepared data.

The stand-alone scripts are modelled as functions on tables:

- entrypoints/XGboosting-test.py (`XgboostingTest`): the `labels`-flagged merge, the
  features with only `quality` dropped, and `safe_smote_resample`;
- RandomForest_v2.py (`RandomForestV2`): the six-column features and the string
  target;
- gradient_boosting_agrupado.py (`GradientBoostingAgrupado`): the `type`-flagged
  merge, the `quality_category` column and the features without either quality
  column.

## Model

| member | source | states |
|---|---|---|
| Tables.Column | models/preprocessing.py:77 | `t[c]` has one entry per row, entry k being row k's cell |
| Tables.Concat | models/preprocessing.py:54 | the header is kept; the rows of `a` come first, in order, then the rows of `b`; well-formedness and integer columns survive |
| Tables.WithConstant | RandomForest_v2.py:14-15 | a constant column is appended when new and overwritten when present; every row gets the value |
| Tables.Apply | models/preprocessing.py:74-76 | `t[dst] = t[src].apply(f)` writes `f` of each row's score into `dst`, in place when `dst` exists; row count is kept |
| Tables.ApplySeries | RandomForest_v2.py:41 | `s.apply(f)` maps every entry, same length |
| Tables.Project | models/preprocessing.py:104-113 | exactly the listed columns in the listed order, every row kept, cells unchanged |
| Tables.Without | entrypoints/XGboosting-test.py:82 | the remaining labels are exactly those not dropped, and still distinct |
| Tables.WithoutKeepsOrder | entrypoints/XGboosting-test.py:82 | any two remaining labels appear in the original column list in the same relative order |
| Tables.Drop | entrypoints/XGboosting-test.py:82 | `drop(cs, axis=1)` keeps every other column with its cells and every row |
| Tables.Select | models/preprocessing.py:139-145 | row i of a partition is the input row at the i-th chosen position |
| Tables.SelectValues | models/preprocessing.py:139-145 | entry i of a partition is the input entry at the i-th chosen position |
| Tables.ConcatWithProvenance | RandomForest_v2.py:14-18 | red rows flagged `va` come first, then white rows flagged `vb`; the length is the sum |
| Tables.ProvenanceKeepsIntColumn | gradient_boosting_agrupado.py:13-16 | writing a provenance flag leaves the integer `quality` column integer |
| Tables.ColumnOfConcat | models/preprocessing.py:54 | a column of the concatenation is the red column followed by the white column |
| Tables.FeaturesDistinct | models/preprocessing.py:104-113 | the six feature labels are distinct and do not include `quality` |
| Quality.Categoria | models/preprocessing.py:74-76 | each class holds exactly its range of scores: 0 for q ≤ 5, 1 for 5 < q < 7, 2 for q ≥ 7 |
| Quality.CategoriaMonotone | models/random_forest.py:98-100 | a higher score never gets a lower class |
| Quality.Categorias | models/preprocessing.py:74-76 | the categoriser applied entry by entry |
| Quality.CategoriaBoundaries | models/preprocessing.py:62-64 | 5→0, 6→1, 7→2, and the fixture scores 5, 5, 5, 6, 8 give 0, 0, 0, 1, 2 |
| Quality.CategoriaNotIdempotent | models/preprocessing.py:74-77 | binning a class again yields 0; binning is idempotent only on scores ≤ 5 |
| Quality.Rotulo | random_forest.py:40-42 | "Boa" exactly for q ≥ 7, "Média" exactly for 5 < q < 7, "Ruim" exactly for q ≤ 5 |
| Quality.CategoriaQuality | RandomForest_v2.py:29-38 | the if/elif/else chain gives "Boa" exactly for q ≥ 7, "Média" exactly for 5 < q < 7, else "Ruim" |
| Quality.Ordinal | models/preprocessing.py:61-64 | the docstring's names Ruim, Média and Boa decode to 0, 1 and 2; anything else to nothing |
| Quality.StringCategorisersAgree | RandomForest_v2.py:29-38 | the two string categorisers agree on every score, and decoding their label gives the numeric class |
| Quality.AgruparQualidade | gradient_boosting_agrupado.py:20-26 | group 0 exactly for q ≤ 4, 1 exactly for 5 ≤ q ≤ 6, 2 exactly for q ≥ 7 |
| Quality.AgruparMonotone | gradient_boosting_agrupado.py:20-26 | a higher score never gets a lower group |
| Quality.AgruparDiffersOnlyAtFive | gradient_boosting_agrupado.py:21-24 | the grouping equals the numeric categoriser at every score but 5, where it gives 1 instead of 0 |
| Learning.TestCount | models/preprocessing.py:139-145 | the test-set size `ceil(test_size * n)` lies within one of `test_size * n` |
| Learning.PartitionSizes | models/preprocessing.py:139-145 | a partition of n rows puts exactly n rows into its two parts |
| Learning.TrainTestSplit | models/preprocessing.py:139-145 | both frames are cut by the same disjoint positions covering every row, so `X`/`y` alignment is kept and the sizes add up |
| Learning.DefaultTrainShare | models/preprocessing.py:142 | at `test_size=0.2` and 20 or more rows the training share is strictly between 0.75 and 0.85 |
| Learning.Predictions | random_forest.py:77 | one prediction per row, each by the fitted rule |
| Learning.Estimator.constructor | models/model.py:26 | a new estimator carries its type name, seed and learning rule, and is not fitted |
| Learning.Estimator.Fit | models/random_forest.py:172 | after `fit` the estimator is trained on exactly the given data |
| Learning.Estimator.Predict | random_forest.py:77 | predicting before any fit fails with NotFittedError; afterwards one label per row |
| Pipeline.Label | random_forest.py:40-42 | only the numeric labelling writes integers; either label names the numeric class of the score |
| Pipeline.Fresh | models/random_forest.py:27-38 | a new object has every frame, series and partition unset, has run no stage, and its record of what the estimator was fitted on is the given one |
| Pipeline.FreshInv | models/random_forest.py:27-38 | the all-unset state satisfies the field invariant |
| Pipeline.ReadStep | models/preprocessing.py:33-35 | both frames become the file contents; nothing else changes |
| Pipeline.JoinStep | models/preprocessing.py:54 | `data` is the red rows in order followed by the white rows in order, of the summed length; nothing else changes |
| Pipeline.CategoriseStep | models/preprocessing.py:74-77 | `quality` is overwritten in place with each row's label, `y` equals the rewritten column, and the header and row count are kept |
| Pipeline.SelectStep | models/preprocessing.py:104-114 | `X` has exactly the six features in order and `y` is `quality`, both with one aligned entry per row of `data` |
| Pipeline.SplitStep | models/preprocessing.py:139-146 | the four partitions come from one split of `X` and `y`, with sizes adding up to the row count |
| Pipeline.FitStep | models/random_forest.py:172 | the estimator is fitted on `X_train`, `y_train`; no field changes |
| Pipeline.SaveStep | models/random_forest.py:197 | saving changes no field |
| Pipeline.FitStepInv | models/random_forest.py:172-173 | fitting and saving keep the field invariant |
| Pipeline.LazyJoin | models/random_forest.py:73-76 | reads first exactly when a frame is unset, then joins |
| Pipeline.LazyCategorise | models/random_forest.py:96-102 | joins first exactly when `data` is unset; `y` is then the rewritten `quality`; with `data` set it is the categorise stage of the old state |
| Pipeline.LazyCategoriseJoins | models/random_forest.py:96-102 | with `data` unset, the result categorises the joined state: `data` is the merge with each score replaced by its label, and `y` holds the label of each raw score, red rows first |
| Pipeline.LazySelect | models/random_forest.py:125-132 | `X` is the six features of `data` and `y` its `quality` column; selection is the last stage; with `data` and `y` set it is the select stage of the old state |
| Pipeline.LazySelectCategorises | models/random_forest.py:125-132 | with `y` unset, selection runs on the categorised state, so `y` holds labels: those of the scores in `data` when `data` was set, those of the merged raw scores otherwise |
| Pipeline.LazySplit | models/random_forest.py:150-155 | all four partitions are set and cover every row; split is the last stage; with `X` and `y` set it is the split stage of the old state |
| Pipeline.LazySplitSelects | models/random_forest.py:150-155 | with `X` or `y` unset, the result is the split stage applied to what selection produces, and the four partitions are the splitter's cut of the selected `X` and `y` |
| Pipeline.LazyFit | models/random_forest.py:170-173 | the estimator is fitted on the training partition of the result; fit is the last stage; with the training partition set it is the fit stage of the old state |
| Pipeline.LazyFitSplits | models/random_forest.py:170-173 | with the training partition unset, the result fits on the training partition of the split with `test_size=0.2` and `random_state=42` |
| Pipeline.LazyPredictSplits | random_forest.py:75-77 | with `X_test` unset, the result is the split with `test_size=0.2` and `random_state=42`: `X_test` is the test part of the current `X` and `y` when both are set, and otherwise the split follows selection |
| Pipeline.LazyPredictState | random_forest.py:75-77 | splits only when `X_test` is unset and never changes the fitted state |
| Pipeline.PreprocessRun | models/preprocessing.py:168-172 | the five stages from any valid state keep the field invariant |
| Pipeline.TrainRun | models/random_forest.py:246-252 | the seven calls from any valid state keep the field invariant |
| Pipeline.RawQualities | models/preprocessing.py:54 | the raw scores of the merged table, red rows first |
| Pipeline.PreprocessOrder | models/preprocessing.py:168-173 | `preprocess` calls read, join, categorise, select, split in that order, categorising once |
| Pipeline.PreprocessLabels | models/preprocessing.py:168-173 | after `preprocess`, `y` is the numeric class of each raw score in order, and both label partitions hold only 0, 1 and 2 |
| Pipeline.SplitKeepsLabels | models/preprocessing.py:139-145 | partitions of class labels hold only class labels |
| Pipeline.CategoriseTwice | models/preprocessing.py:74-76 | a second numeric `apply_categoria` maps every label to 0 |
| Pipeline.TextCategoriseOnce | random_forest.py:40-42 | once the text labels are written, a second `apply_categoria` cannot run on a non-empty table |
| Pipeline.TrainOrder | models/random_forest.py:246-252 | `train` performs exactly read, join, categorise, select, split, fit, save, categorising once, and fits on the training partition |
| Pipeline.TrainHead | models/random_forest.py:246-248 | the first three calls of `train` auto-invoke nothing |
| Pipeline.TrainTail | models/random_forest.py:249-252 | once `data` and `y` are set, the last four calls auto-invoke nothing |
| Pipeline.TrainLabels | models/random_forest.py:246-252 | `train` fits on labels 0, 1, 2 that are the numeric classes of the raw scores |
| Pipeline.SelectFromFresh | models/random_forest.py:125-131 | on a fresh object `feature_selection` reads, joins and categorises first and returns the six features of the merged rows |
| Pipeline.FitFromFresh | models/random_forest.py:170-173 | on a fresh object `apply_model` runs every earlier stage once with the default split, then fits |
| Pipeline.PredictFromFresh | random_forest.py:75-77 | on a fresh object `model_predict` runs the five stages and nothing is fitted |
| ModelsPreprocessing.Preprocessing.constructor | models/preprocessing.py:15-17 | a fresh object has no field set |
| ModelsPreprocessing.Preprocessing.LeituraDataset | models/preprocessing.py:33-35 | both frames are the two files' contents and are returned |
| ModelsPreprocessing.Preprocessing.JoinDatasets | models/preprocessing.py:54-55 | with both frames set, the new state is the join stage of the old |
| ModelsPreprocessing.Preprocessing.ApplyCategoria | models/preprocessing.py:74-78 | with `data` set, the new state is the categorise stage of the old; returns `y` |
| ModelsPreprocessing.Preprocessing.FeatureSelection | models/preprocessing.py:104-115 | with `data` and `y` set, the new state is the selection stage of the old; returns `X`, `y` |
| ModelsPreprocessing.Preprocessing.SplitDados | models/preprocessing.py:139-146 | with `X` and `y` set, the new state is the split stage of the old; returns the four partitions |
| ModelsPreprocessing.Preprocessing.Preprocess | models/preprocessing.py:168-173 | from any valid state the new state is the five-stage run, and the four partitions are returned |
| ModelsModel.UnpreparedMessageNamesCause | models/model.py:44-47 | the error message contains "não foram preparados" |
| ModelsModel.SavePath | models/model.py:66-67 | no path means `models/random_forest_model.joblib` |
| ModelsModel.Modelo.constructor | models/model.py:25-30 | a fresh `Preprocessing`, a random forest with `random_state=42` never fitted, and four unset partitions |
| ModelsModel.Modelo.ApplyModel | models/model.py:43-49 | without both training partitions: ValueError with the message, nothing fitted; with them: fitted on them and returned |
| ModelsModel.Modelo.SaveModel | models/model.py:66-70 | the path written to is the given one or the default |
| ModelsModel.Modelo.Train | models/model.py:91-101 | the partitions are the ones `preprocess` returns, so the guard cannot fire; the fit is on class labels 0–2; then it saves at the default path |
| ModelsRandomForest.SavePath | models/random_forest.py:193-195 | no path means `models/modelo_<TypeName>.joblib` |
| ModelsRandomForest.Modelo.constructor | models/random_forest.py:27-38 | paths and estimator stored; every other field unset |
| ModelsRandomForest.Modelo.LeituraDataset | models/random_forest.py:54-56 | both frames are the contents of the two paths |
| ModelsRandomForest.Modelo.JoinDatasets | models/random_forest.py:73-76 | reads first exactly when a frame is unset; the new state is the lazy join of the old |
| ModelsRandomForest.Modelo.RunJoin | models/random_forest.py:75-76 | with both frames set, the join stage |
| ModelsRandomForest.Modelo.ApplyCategoria | models/random_forest.py:96-102 | joins when `data` is unset; the new state is the lazy categorisation of the old |
| ModelsRandomForest.Modelo.RunCategorise | models/random_forest.py:98-102 | with integer scores in `data`, the categorise stage with the numeric labels |
| ModelsRandomForest.Modelo.FeatureSelection | models/random_forest.py:125-132 | joins and categorises when unset; the new state is the lazy selection of the old |
| ModelsRandomForest.Modelo.RunSelect | models/random_forest.py:129-132 | with `data` set, the selection stage |
| ModelsRandomForest.Modelo.SplitDados | models/random_forest.py:150-155 | selects when `X` or `y` is unset; the new state is the lazy split of the old |
| ModelsRandomForest.Modelo.RunSplit | models/random_forest.py:152-155 | with `X` and `y` set, the split stage |
| ModelsRandomForest.Modelo.ApplyModel | models/random_forest.py:170-173 | splits with the defaults when unset, fits, and returns the same estimator object |
| ModelsRandomForest.Modelo.RunFit | models/random_forest.py:172 | with the training partition set, the fit stage |
| ModelsRandomForest.Modelo.SaveModel | models/random_forest.py:193-198 | changes no field; the path is the given one or the type-named default |
| ModelsRandomForest.Modelo.Train | models/random_forest.py:246-252 | the new state is the seven-call run of the old, saved at the type-named default path |
| RandomForestScript.Modelo.constructor | random_forest.py:9-21 | paths and estimator stored; every other field unset |
| RandomForestScript.Modelo.LeituraDataset | random_forest.py:25-27 | both frames are the contents of the two paths |
| RandomForestScript.Modelo.JoinDatasets | random_forest.py:31-34 | reads first exactly when a frame is unset; the new state is the lazy join of the old |
| RandomForestScript.Modelo.RunJoin | random_forest.py:33-34 | with both frames set, the join stage |
| RandomForestScript.Modelo.ApplyCategoria | random_forest.py:38-44 | joins when `data` is unset; the new state is the lazy categorisation of the old, with text labels |
| RandomForestScript.Modelo.RunCategorise | random_forest.py:40-44 | with integer scores in `data`, the categorise stage with the text labels |
| RandomForestScript.Modelo.FeatureSelection | random_forest.py:48-55 | joins and categorises when unset; the new state is the lazy selection of the old |
| RandomForestScript.Modelo.RunSelect | random_forest.py:52-55 | with `data` set, the selection stage |
| RandomForestScript.Modelo.SplitDados | random_forest.py:59-64 | selects when `X` or `y` is unset; the new state is the lazy split of the old |
| RandomForestScript.Modelo.RunSplit | random_forest.py:61-64 | with `X` and `y` set, the split stage |
| RandomForestScript.Modelo.ApplyModel | random_forest.py:68-71 | splits with the defaults when unset, fits, and returns the same estimator object |
| RandomForestScript.Modelo.RunFit | random_forest.py:70-71 | with the training partition set, the fit stage |
| RandomForestScript.Modelo.ModelPredict | random_forest.py:75-77 | splits when `X_test` is unset, then predicts every test row, or fails when never fitted |
| Provenance.MergeLabelled | entrypoints/XGboosting-test.py:28-33 | red rows with `labels` 0 come first, then white rows with `labels` 1; the length is the sum and `quality` stays integer |
| Provenance.MergeTyped | gradient_boosting_agrupado.py:13-16 | red rows with `type` 1.0 come first, then white rows with `type` 0.0; the length is the sum and `quality` stays integer |
| XgboostingTest.Features | entrypoints/XGboosting-test.py:82 | `X` has every column but `quality`, in the original order (`Without`), with the same cells and rows |
| XgboostingTest.Target | entrypoints/XGboosting-test.py:85 | `y` is the raw `quality` of each row |
| XgboostingTest.FeaturesKeepLabels | entrypoints/XGboosting-test.py:137 | on the merged data only `quality` is dropped: `labels` stays a feature (0 on red rows, 1 on white) and the row count is unchanged |
| XgboostingTest.Count | entrypoints/XGboosting-test.py:163 | the count of a class is positive exactly when it occurs in `y`, and never more than the length of `y` |
| XgboostingTest.MinCountOver | entrypoints/XGboosting-test.py:163-164 | the minimum is the count of some class among the first n entries and no larger than any of their counts |
| XgboostingTest.MinCount | entrypoints/XGboosting-test.py:163-164 | `min(Counter(y).values())` is the count of a present class, at least 1, and no present class has fewer |
| XgboostingTest.NeighbourCount | entrypoints/XGboosting-test.py:168 | `k` is `min(desired_k, max(1, min_count - 1))` for every input: it equals one of the two and exceeds neither; it is at least 1 for positive `desired_k`, and below `min_count` once that is ≥ 2 |
| XgboostingTest.ScriptNeighbourCount | entrypoints/XGboosting-test.py:174 | the script's call with `desired_k=3` uses 3 neighbours whenever the smallest class has ≥ 4 samples |
| XgboostingTest.SafeSmoteResample | entrypoints/XGboosting-test.py:157-170 | empty labels raise (and only they do); a smallest class of ≤ 1 returns the inputs unchanged; otherwise SMOTE is called with the derived `k` |
| XgboostingTest.ResampleNeighboursFit | entrypoints/XGboosting-test.py:163-169 | whenever it resamples with `desired_k ≥ 1`, `1 ≤ k ≤ desired_k` and every class present has more than `k` samples |
| XgboostingTest.SingletonClassSkips | entrypoints/XGboosting-test.py:165-167 | any class with a single sample switches resampling off |
| RandomForestV2.Features | RandomForest_v2.py:25-26 | `X` has exactly the six features in order, with the same cells and rows |
| RandomForestV2.Target | RandomForest_v2.py:41 | `y` is `categoria_quality` of each row's score |
| RandomForestV2.FeaturesMatchPreprocessing | RandomForest_v2.py:14-26 | the features of the `labels`-flagged merge equal the six-column projection of the plain concatenation used in models/preprocessing.py |
| RandomForestV2.TargetDecodesToCategoria | RandomForest_v2.py:29-41 | `X` and `y` are aligned, and each text label decodes to the numeric class of its source row's score, red rows first |
| GradientBoostingAgrupado.WithCategory | gradient_boosting_agrupado.py:29 | a new `quality_category` column, appended last, holds each row's group; every other column, `quality` included, is untouched |
| GradientBoostingAgrupado.Features | gradient_boosting_agrupado.py:37 | `X` has exactly the columns other than `quality` and `quality_category`, in the original order (`Without`), with the same cells and rows |
| GradientBoostingAgrupado.Target | gradient_boosting_agrupado.py:40 | `y` is `quality_category` of each row |
| GradientBoostingAgrupado.Prepare | gradient_boosting_agrupado.py:16-40 | `X` and `y` have one row per wine across both files |
| GradientBoostingAgrupado.FeaturesKeepType | gradient_boosting_agrupado.py:37 | `X` keeps `type` and every measurement column and drops both quality columns |
| GradientBoostingAgrupado.TypeFlagByOrigin | gradient_boosting_agrupado.py:13-16 | in `X`, `type` is 1.0 on the red rows, which come first, and 0.0 on the white rows |
| GradientBoostingAgrupado.TargetGroupsRawScores | gradient_boosting_agrupado.py:20-40 | `y` is the group of each source row's raw score, red first, and the raw `quality` column is preserved |

## Left out

- Reading the CSV files: the contents of each path are a `readCsv` parameter. The paths themselves are modelled as the source's constants. The estimator is constructed from an opaque `Algorithm`. The wine tables are assumed to share one header with an integer `quality` and the six features (`WineSources`).
- Tables.Concat: it requires both frames to have the same header. pandas would take the union of the columns and fill gaps with NaN; the two wine files share one header.
- Learning.TrainTestSplit: the library's stratified, seeded choice of positions is an opaque `Splitter`. Only its partition contract is used. The `ceil(test_size * n)` sizing rule is an assumption (`SplitterSizes`) that only `DefaultTrainShare` relies on. It is made only at the `test_size=0.2` the source uses, and it is computed over exact reals rather than floats. Invalid `test_size` values and stratification errors are not modelled.
- Learning.Estimator: tree-ensemble fitting and prediction are an opaque learned rule; only what the estimator was last fitted on is kept. Metrics, reports and confusion matrices are not modelled.
- XgboostingTest.SafeSmoteResample: SMOTE interpolation is an opaque `Resampler`; the model only says it is called with the derived `k`. The labels are whatever `LabelEncoder` produced, and the encoder itself is not modelled. A non-positive `desired_k` is passed through to SMOTE as in the source.
- `joblib.dump`, `joblib.load` and the "saved" print. `SaveModel` returns the path it would write to.
- ModelsRandomForest.Modelo.Train: returns the save path so the default can be stated; the Python method returns None.
- ModelsModel.Modelo.Train: returns the save path so the default can be stated; the Python method returns None.
- ModelsModel.Modelo.constructor: takes the file contents, the splitter and the forest's rule as parameters, where the Python constructor takes none.
- ModelsPreprocessing.Preprocessing.JoinDatasets: `__init__` assigns no attribute, so the `is None` guard raises AttributeError on a fresh object instead of reading. The model requires the frames to be set and follows the code, not the docstring's promise of auto-reading.
- ModelsPreprocessing.Preprocessing.ApplyCategoria: requires `data` to be set, for the same AttributeError reason.
- ModelsPreprocessing.Preprocessing.FeatureSelection: requires `data` and `y` to be set, for the same AttributeError reason.
- ModelsPreprocessing.Preprocessing.SplitDados: requires `X` and `y` to be set, for the same AttributeError reason. `preprocess` always sets them first.
- RandomForestScript.Modelo.ApplyCategoria: requires `quality` to still hold integers (`CanCategorise`). A second call on text labels raises TypeError in Python, and `TextCategoriseOnce` shows that this state is reachable.
- Each auto-invoking method of the two `Modelo` classes is split into its guard and a `Run…` method for the part past the guard. The composition is the Python method.
- Object identity and aliasing of pandas frames (views and copies, the in-place column write on a shared frame) are not modelled. Frames are values, and `apply_categoria`'s in-place rewrite is a new `data` value.
- The module-level script code of random_forest.py, RandomForest_v2.py, gradient_boosting_agrupado.py and entrypoints/XGboosting-test.py is not modelled. This covers the fitting, evaluation, printing and plotting; only the data preparation is modelled.
- models/inferences.py, the Streamlit application (streamlit_app/, entrypoints/st_app.py), entrypoints/random_forest_training.py and entrypoints/train.py are not part of this model. They are joblib wrappers, UI, HTTP downloads and entry-point dispatch.
- Tests that call methods the classes do not define (`evaluate_model`, `save_metadata`, `main` with an argument) are not modelled.
