# drone-flight-predictor: the shared data path, modelled in Dafny

This project models the part of drone-flight-predictor that training and serving
share: the sliding-window sample builders, the per-feature affine normalisation and
its statistics, the settings that supply those statistics, the request/response
conversions, the `/predict` endpoint's check order and error mapping, and the
offline evaluation's test split and error metrics. The learned network is opaque: a
function from a normalised batch of windows to the elements of its output, or a
failure.

One module per source file:

| file | module | source |
|---|---|---|
| wrappers.dfy | Wrappers | Option / Result used for the source's exceptions |
| vectors.dfy | Vectors | the [x, y, t] feature vector on the last axis of every array |
| tables.dfy | Tables | the flight table, with or without a `trajectory_id` column |
| normalization.dfy | Normalization | app/core/utils.py |
| config.dfy | Config | app/core/config.py |
| dataset.dfy | Dataset | training/dataset.py |
| generate_sequences.dfy | GenerateSequences | data/generate_sequences.py |
| preprocess.dfy | Preprocess | data/preprocess.py |
| schemas.dfy | Schemas | app/schemas/flight.py |
| predict.dfy | Predict | app/api/predict.py |
| evaluate.dfy | Evaluate | scripts/evaluate.py |

The loops of the source stay loops: `_create_windows`, `create_sequences`,
`generate_windows`, `generate_synthetic_flight_data` and the prediction loop of
`evaluate_model` are methods with loop invariants, each specified by functions
(`Windows`, `Targets`, `GroupWindows`, `SequencesOf`, ...) about which the lemmas are
proved. `FlightDataset` is a class whose fields are set once by its constructor. The
rest is pure functions.

A wrong point count is an HTTP 400, an absent model makes every request fail with 500,
and the statistics are not checked for zero std entries when they are loaded.

## Model

| member | source | states |
|---|---|---|
| Normalization.Normalize | app/core/utils.py:4-8 | each feature of the result, multiplied by std, gives back v - mean: it is (v - mean) / std |
| Normalization.Denormalize | app/core/utils.py:10-14 | for every std, zero entries included, each component of the result minus the mean is the input times std; whenever std has no zero entry the result normalises back to v, so denormalize inverts normalize |
| Normalization.NormalizeRows | app/core/utils.py:4-8 | normalize on a (seq_len, 3) array keeps the length, and denormalize gives back each row |
| Normalization.DenormalizeRows | app/core/utils.py:10-14 | denormalize on a (seq_len, 3) array keeps the length and maps each row on its own for every std, and normalize gives back each row when std has no zero entry |
| Normalization.NormalizeBatch | app/core/utils.py:4-8 | normalize on a (batch, seq_len, 3) array keeps the shape |
| Normalization.DenormalizeBatch | app/core/utils.py:10-14 | denormalize on a (batch, seq_len, 3) array keeps the shape and maps every vector on its own, for every std |
| Normalization.DenormalizeNormalize | app/core/utils.py:8-14 | denormalize(normalize(v)) == v whenever std has no zero entry |
| Normalization.NormalizeDenormalize | app/core/utils.py:8-14 | normalize(denormalize(v)) == v whenever std has no zero entry |
| Normalization.DenormalizeNormalizeRows | app/core/utils.py:4-14 | on a (seq_len, 3) array normalize keeps the length and denormalize undoes it |
| Normalization.NormalizeDenormalizeRows | app/core/utils.py:4-14 | on a (seq_len, 3) array denormalize keeps the length and normalize undoes it |
| Normalization.DenormalizeNormalizeBatch | app/core/utils.py:4-14 | the round trip on a (batch, seq_len, 3) array |
| Normalization.NormalizeBatchRowwise | app/core/utils.py:4-8 | a (batch, seq_len, 3) array keeps its shape and row [b][i] of the result is normalize of row [b][i] alone |
| Normalization.NormalizeMean | app/core/utils.py:8 | normalize(mean) is the zero vector |
| Normalization.IdentityStats | app/core/utils.py:8-14 | mean 0 and std 1 make normalize and denormalize the identity on a vector |
| Normalization.IdentityStatsBatch | app/core/utils.py:4-8 | ... and normalize the identity on a whole batch |
| Config.ArrayOf | app/core/config.py:18-40 | a list setting is returned as is; a text setting is its parsed list, or the fallback when parsing raises |
| Config.MeanArray | app/core/config.py:18-28 | a list MEAN as is; a text MEAN parsed, or [0, 0, 0] when parsing raises |
| Config.StdArray | app/core/config.py:30-40 | a list STD as is; a text STD parsed, or [1, 1, 1] when parsing raises |
| Config.StatsOf | app/core/utils.py:6-8 | statistics exist exactly when mean_array and std_array both have one entry per feature, and then they are those arrays |
| Config.ListSettingsUnchanged | app/core/config.py:26-28 | list-valued MEAN and STD pass through mean_array and std_array unchanged |
| Config.UnparseableMean | app/core/config.py:22-25 | an unparseable MEAN text gives [0, 0, 0] |
| Config.UnparseableStd | app/core/config.py:34-37 | an unparseable STD text gives [1, 1, 1], which has no zero entry |
| Config.StdArrayKeepsZero | app/core/config.py:30-40 | whatever list STD is configured or parsed to, std_array is exactly that list: zero entries are not replaced |
| Config.DefaultsAreIdentity | app/core/config.py:11-12 | the default MEAN and STD texts give mean 0 and std 1, so normalize and denormalize are the identity |
| Dataset.CreateWindows | training/dataset.py:45-55 | exactly max(0, L - w) windows and as many targets; window i is rows i .. i + w - 1 (w rows), target i is row i + w, in ascending i |
| Dataset.WindowsShiftByOne | training/dataset.py:49-53 | window i + 1 is window i shifted by one row, and its last row is target i |
| Dataset.Unique | training/dataset.py:32 | the ids, each once, ordered by first appearance in the column |
| Dataset.TrajectoryAppend | training/dataset.py:33 | selecting one id's rows keeps table order: it distributes over concatenation |
| Dataset.TrajectoryRowsTagged | training/dataset.py:33-34 | every row of a trajectory is a table row tagged with that id |
| Dataset.TrajectoryComplete | training/dataset.py:33 | every table row tagged with an id is in that id's trajectory (with TrajectoryRowsTagged: the trajectory holds exactly the id's rows) |
| Dataset.GroupCountLaw | training/dataset.py:31-36 | windows and targets both number the sum over ids of max(0, L_id - w) |
| Dataset.SourceOfWindow | training/dataset.py:31-36 | pair k is one contiguous window of a single trajectory, rows o.1 .. o.1 + w - 1 of trajectory ids[o.0], and its target is the row right after it |
| Dataset.NoMixing | training/dataset.py:33-34 | all rows of window k and its target belong to the same trajectory id |
| Dataset.SequencesAligned | training/dataset.py:31-43 | a table yields as many targets as windows |
| Dataset.CreateSequences | training/dataset.py:25-43 | the pairs are those of each id's trajectory in first-appearance order, or of the whole table without the id column |
| Dataset.FlightDataset.constructor | training/dataset.py:10-17 | the dataset holds the given X and y |
| Dataset.FlightDataset.Length | training/dataset.py:19-20 | the length is the number of windows |
| Dataset.FlightDataset.GetItem | training/dataset.py:22-23 | item idx is (X[idx], y[idx]), negative idx counting from the end; out of range raises |
| Dataset.DatasetItems | training/dataset.py:19-23 | for a dataset built from the windows of a trajectory, item i is (rows i .. i + w - 1, row i + w) |
| GenerateSequences.ILocSlice | data/generate_sequences.py:6 | iloc slicing: rows from lo on, never past the end; rows lo .. hi - 1 for a stop in range, nothing for 0 <= hi <= lo, and a negative stop counted from the end |
| GenerateSequences.SliceStop | data/generate_sequences.py:6 | the stop iloc uses: hi itself in range, len + hi for a negative hi, 0 when len + hi is negative, len when hi is past the end |
| GenerateSequences.GenerateWindows | data/generate_sequences.py:3-9 | max(0, L - w + 1) pairs, pair start = (rows start .. start + 4, row start + 5) whatever w; raises exactly when w < 6 and there is a start (also for negative w, whose stop counts from the end); with w = 6 the result equals _create_windows(df, 5) |
| Preprocess.Variance | data/preprocess.py:47 | the population variance of a column is never negative |
| Preprocess.CalculateNormalizationStats | data/preprocess.py:43-52 | mean is the column mean; every std entry is positive; a column with nonzero variance gets its standard deviation (non-negative, squaring to the variance), and a zero std entry becomes 1.0 |
| Preprocess.GuardedRoot | data/preprocess.py:47-50 | sqrt of a variance with zeros replaced by 1.0 is positive, and is the standard deviation when the variance is not 0 |
| Preprocess.ConstantColumn | data/preprocess.py:46-47 | a constant column has mean equal to its value and variance 0 |
| Preprocess.ConstantFeatureStdIsOne | data/preprocess.py:46-50 | a feature that never varies gets std 1.0 and mean equal to its value |
| Preprocess.SortByT | data/preprocess.py:16 | the result is sorted by t and is a permutation of the input |
| Preprocess.LoadFlightData | data/preprocess.py:7-18 | fails exactly when x, y or t is missing; otherwise a permutation of the projected rows, sorted by t |
| Preprocess.GenerateSyntheticFlightData | data/preprocess.py:20-41 | n * L rows, row k belonging to trajectory k / L at position k % L (ids in contiguous blocks); raises when there are no trajectories |
| Schemas.ToNumpy | app/schemas/flight.py:13-16 | succeeds exactly for 5 points, giving one [x, y, t] row per point in order, shaped (1, 5, 3) |
| Schemas.FromArray | app/schemas/flight.py:23-25 | components 0, 1, 2 become x, y, t; fewer than 3 components raise |
| Schemas.FromArrayOfRow | app/schemas/flight.py:15-25 | reading back the row of a point gives its own x, y and t |
| Schemas.FromArrayIgnoresTail | app/schemas/flight.py:24-25 | components after the third do not change the result |
| Predict.ModelAtImport | app/api/predict.py:12-17 | the module's model is present exactly when loading succeeded |
| Predict.Pipeline | app/api/predict.py:28-42 | the reshape step fails exactly when the request does not have 5 points |
| Predict.Predict | app/api/predict.py:19-46 | no model: 500 for every input; else a count other than 5: 400; errors are only 400 or 500; a failure inside the try block is 500; success is the pipeline's point |
| Predict.PredictComputes | app/api/predict.py:28-46 | for a loaded model and 5 points: unbroadcastable statistics, a raising network and an output that is not 3 values each give 500 with that cause; a 3-value output gives 200 with from_array(denormalize(f(normalize(to_numpy(points))))) |
| Predict.NotLoadedAlways500 | app/api/predict.py:12-23 | when loading failed at import, every request, whatever the settings, gets 500 with detail "Модель не загружена" |
| Predict.WrongCountText | app/api/predict.py:25-26 | a loaded model and a count other than 5 give 400 with detail "Нужно ровно 5 точек", whatever the settings |
| Predict.PipelineFailureText | app/api/predict.py:44-46 | for 5 points, every failure inside the try block is a 500 whose detail begins "Ошибка при предсказании: " |
| Predict.PredictWithDefaults | app/api/predict.py:28-42 | under the default settings the response is the network's output read as x, y, t |
| Predict.HealthCheck | app/api/predict.py:48-54 | "healthy" with model_loaded true exactly when the model is present, "unhealthy" with false otherwise |
| Evaluate.TestPart | scripts/evaluate.py:32-34 | the last int(0.2 N) windows, or all N when that is 0 |
| Evaluate.TestSize | scripts/evaluate.py:32 | int(0.2 N) is the whole number k with 5k <= N < 5k + 5 |
| Evaluate.TestSplitAligned | scripts/evaluate.py:32-34 | inputs and targets are sliced alike, so test pair i is the same pair of the whole set |
| Evaluate.TestPartSmall | scripts/evaluate.py:32-34 | below 5 windows the test set is all of them; it is empty only when there are no windows |
| Evaluate.MetricCoord | scripts/evaluate.py:66-70 | per-coordinate MSE / MAE is a mean of squared / absolute differences in that column, never negative |
| Evaluate.Metric | scripts/evaluate.py:57-58 | MSE / MAE is a mean of squared / absolute differences over all components, never negative |
| Evaluate.MetricIsAverage | scripts/evaluate.py:57-70 | the overall metric is the uniform average of the three per-coordinate ones |
| Evaluate.PerfectPrediction | scripts/evaluate.py:57-59 | predictions equal to the targets give mse = mae = 0, overall and per coordinate |
| Evaluate.PerfectRmse | scripts/evaluate.py:57-59 | predictions equal to the targets give rmse = sqrt(mse) = 0 |
| Vectors.RootOfZero | scripts/evaluate.py:59 | np.sqrt(0) is 0 |
| Evaluate.PredictAll | scripts/evaluate.py:42-48 | one network output per test window, each window batched alone, in order; fails when any call raises |
| Evaluate.AsRows | scripts/evaluate.py:50-54 | the outputs form an (N, 3) array exactly when each has 3 elements |
| Evaluate.AnsweredIff | scripts/evaluate.py:44-50 | the prediction loop and the (N, 3) array both succeed exactly when the network answers every normalised test window with three values |
| Evaluate.OutputsAreNormalizedPredictions | scripts/evaluate.py:42-54 | the network's output for test window i, read as a row, is prediction i normalised: denormalising the outputs loses nothing |
| Evaluate.Score | scripts/evaluate.py:52-70 | the reported values are the denormalised targets and outputs; mse and mae are the means of squared and absolute differences, rmse = sqrt(mse) is non-negative with rmse² = mse, and each coordinate's MSE and MAE are over that column |
| Evaluate.EvaluateTestSet | scripts/evaluate.py:38-70 | a report exactly when every test window is answered with three values; it holds the raw test targets (the round trip is exact) and the metrics above, and the network's output for window i is the normalised prediction i |
| Evaluate.EvaluateModel | scripts/evaluate.py:12-81 | nothing is computed exactly when no model is loaded; with a model, a report exactly when the statistics broadcast, the test set is not empty and every test window is answered with three values; the report holds the raw test targets, mse, mae, rmse = sqrt(mse) with rmse ≥ 0 and rmse² = mse, and the per-coordinate metrics |

## Left out

- The networks `LSTMNetwork` and `TrajectoryPredictor` (app/models/network.py), the
  torch wrapper `Predictor` / `load_model` (app/models/predictor.py) and the training
  loop (training/train.py): the network is the parameter `forecast`, and a load is an
  outcome passed to `ModelAtImport`. Which horizon step a multi-step network would
  contribute is not modelled: its 30-element output is an `OutputShape` failure, as
  the code's broadcast would be.
- FastAPI routing, CORS, logging, the client scripts, plotting, `save_normalization_stats`
  (a file write), `main` in data/preprocess.py and run_pipeline.py.
- Floating point: all values are reals; float32 conversion in the settings and the
  tensors, rounding, NaN and infinity are not modelled.
- Normalization.Normalize: requires std without zero entries, since numpy's division by
  zero yields infinity or NaN, which reals cannot represent.
- Predict.Predict: requires std_array without zero entries only when the request reaches
  the division (a loaded model, 5 points, broadcastable statistics), for the same reason.
- Predict.Pipeline: requires std_array without zero entries only for 5 points and
  broadcastable statistics, for the same reason.
- Evaluate.EvaluateModel: requires std_array without zero entries only when a model is
  loaded, the statistics broadcast and the test set is not empty, for the same reason.
- `np.sqrt` is the parameter `root`, required to be an exact square root on the
  non-negative reals (`IsSquareRoot`); float rounding of the root is not modelled.
- Preprocess.CalculateNormalizationStats: requires a non-empty table, since np.mean of
  no rows is NaN; the square root of the variance is the parameter `root`, an exact
  square root (`IsSquareRoot`).
- `ast.literal_eval` is the parameter `parse`; a literal that is not a list of numbers
  (a scalar, a dict) is not modelled.
- numpy broadcasting of a length-1 statistics vector or a 1-element network output
  against the feature axis is not modelled: every length other than 3 is a shape error.
- Reading the CSV files (I/O) is not modelled: the table is a parameter. Non-numeric
  cells and pandas' handling of NaN when sorting are not modelled; pandas' default sort
  is not stable, so `SortByT` is specified only as sorted and a permutation.
- `np.random`, `np.sin`, `np.cos` and `np.linspace` in `generate_synthetic_flight_data`:
  the values of row i of trajectory j are the parameter `sample(j, i)`; only the row and
  id layout is modelled.
- Negative arguments (window sizes of `_create_windows`/`create_sequences`, trajectory
  counts and lengths) are excluded by the types; `generate_windows` takes any integer.
- GenerateSequences.GenerateWindows: which start index a failing call stops at is not
  stated, only that it fails.
- The exception message that follows "Ошибка при предсказании: " in a 500 detail comes
  from numpy or torch and is not modelled; the detail records which step failed.
- The per-coordinate metrics are printed by evaluate_model, not returned; the model's
  report carries them alongside the returned mse, mae, rmse, predictions and targets.
- int(0.2 * N) is modelled as N / 5 rounded down; the rounding of the float product
  0.2 * N is not modelled.
