# AR cash-flow forecasting pipeline, modelled in Dafny

The pipeline downloads daily stock prices, cleans them and turns each day into
a simulated accounts-receivable cash inflow (`CashInflow = Close × Volume`).
It then splits that inflow into four aging buckets, flags outlier days with an
IQR rule and a Z-score rule, prepares the series for the Prophet forecaster,
and backtests the forecaster on a chronological holdout with MAPE and RMSE.

The model treats a pandas DataFrame as a value: `Tables.Table` holds
- an ordered list of distinct column labels;
- the name of the index, if any;
- one `Record` per row, carrying the row's index label and one `Cell` per column.

A `Cell` is one of:
- `NA` (missing, NaN or NaT);
- a number over exact reals;
- a string;
- a timestamp on an integer clock;
- a boolean.

Each DataFrame operation the pipeline uses is a function on tables in module
`Tables`:
- column assignment `df[c] = …`;
- `df[[…]]`;
- `rename`;
- boolean row selection;
- `dropna(subset=…)`;
- `sort_values`;
- both forms of `reset_index`.

Operations that fail in pandas return `Err` with the exception's kind
(`KeyError`, `ValueError`, `TypeError`).

The cleaner's in-place edits and the loader's `reset_index(inplace=True)` are
modelled imperatively. `Frames.Frame`
is a class holding the frame's columns, index name and rows. Its methods
`Rename`, `DropNA`, `SetColumn` and `ResetIndex` loop over the labels or the rows, and each
is proved to leave the frame equal to the matching `Tables` function. This
covers:
- `rename(inplace=True)`, `dropna(inplace=True)` and the column reassignments in the cleaner;
- `reset_index(inplace=True)` in the loader.

The other column edits are modelled on values: the relabelling
`df.columns = …` at data_loader.py:27 by `DataLoader.FlatLabels`, and the
assignments `df[c] = …` by `Tables.Assign` at data_loader.py:48, ar_aging.py:20-23 and outlier_detector.py:24
and 45-46. Each of those runs on a frame the function made itself (the
download, or `df.copy()`), so no caller sees the edit.

The cleaner's method `DataCleaner.CleanStockData` and the loader's method
`DataLoader.FetchStockData` run those steps in the source's order. Each is
proved equal to a specification function (`DataCleaner.Clean`,
`DataLoader.Fetch`), and the properties are proved about those functions.
The backtest, the outlier rules, the aging split and the Prophet preparation
are pure in the source and are functions here.

Modules, one per source file plus shared ones:
- `Wrappers`: `Option` and `Result`.
- `Reals`: absolute value, products, squares, sums, and the facts about their signs and order.
- `Tables`: the DataFrame value and its operations.
- `Frames`: the DataFrame edited in place.
- `DataCleaner`: `src/processing/data_cleaner.py`.
- `Backtest`: `src/evaluation/backtest.py`.
- `OutlierDetector`: `src/anomaly/outlier_detector.py`.
- `ArAging`: `src/features/ar_aging.py`.
- `DataLoader`: `src/ingestion/data_loader.py`.
- `ProphetForecaster`: `src/forecasting/prophet_forecaster.py`.

Three consequences of the cleaner's code are worth stating outright:
- A label that only abbreviates volume is not matched: `"VOL"` normalises to
  `"vol"`, which does not contain `"volume"`, so the cleaner raises its KeyError.
  `DataCleaner.AbbreviatedVolume` proves this for the labels `" DATE "`,
  `"close_price"` and `"VOL"`.
- Rows with the same date are all kept. Nothing removes duplicates, so the
  cleaned dates are non-decreasing, not strictly increasing.
- When one column is the first match for two roles, the rename dict at
  data_cleaner.py:37-41 keeps only the later entry. The `dropna` at
  data_cleaner.py:44 then raises a KeyError naming the lost standard labels.
  With the labels `date`, `close_volume` this happens, since `close_volume` is
  the first match for both close and volume; with `date`, `close`,
  `close_volume` it does not, since `close` is matched first for close.
  `DataCleaner.SharedRoles` states which labels are lost.

## Model

| member | source | states |
|---|---|---|
| Tables.FirstIndex | src/processing/data_cleaner.py:27-29 | `next(...)` over a sequence: the first position satisfying the test, with no earlier one satisfying it; None exactly when no element satisfies it |
| Tables.Times | src/ingestion/data_loader.py:48 | element-wise product of numeric cells: a number exactly when both operands are numbers, and then their product; missing otherwise |
| Tables.Assign | src/ingestion/data_loader.py:48 | `df[name] = values`: the label is appended if new, row k of that column holds values[k], every other cell, index label, row count and the index name are unchanged |
| Tables.AssignedCell | src/features/ar_aging.py:20-23 | read back by label after an assignment: the assigned column holds the values, every other column reads as before |
| Tables.AssignTwice | src/anomaly/outlier_detector.py:24 | assigning the same values to the same column a second time changes nothing |
| Tables.AssignAll | src/features/ar_aging.py:20-23 | successive assignments keep well-formedness, rows, index labels and append the new labels in order |
| Tables.AssignAllOther | src/features/ar_aging.py:20-23 | after successive assignments a column not among them reads as before |
| Tables.AssignAllNamed | src/features/ar_aging.py:20-23 | after successive assignments with distinct labels, column names[i] holds values[i] |
| Tables.NumericColumn | src/features/ar_aging.py:20 | `df[column]` used in arithmetic: KeyError exactly when the label is absent, TypeError when a cell is neither number nor missing, otherwise the column's cells row by row |
| Tables.ColumnNamed | src/processing/data_cleaner.py:45-47 | `df[name]`: KeyError exactly when the label is absent, otherwise the cells under that label |
| Tables.ToDatetime | src/forecasting/prophet_forecaster.py:21 | `pd.to_datetime` on one cell: missing stays missing, a timestamp stays itself, otherwise the parser decides; a result is always a timestamp or missing |
| Tables.Missing | src/processing/data_cleaner.py:44 | the requested labels that are not columns, in request order; empty exactly when all are present |
| Tables.Select | src/ingestion/data_loader.py:32 | `df[names]`: KeyError listing exactly the absent labels, otherwise the named columns in the given order with every row's cells and index label |
| Tables.Projection | src/forecasting/prophet_forecaster.py:20 | projection when all labels are present: columns are names, row k's cell i is the input's cell under names[i], index labels and row count kept |
| Tables.Relabel | src/processing/data_cleaner.py:24 | labels after `rename(columns=mapping)`: a mapped label is replaced, any other kept, positions unchanged |
| Tables.Rename | src/forecasting/prophet_forecaster.py:20 | `rename` changes only the labels; rows and index name are untouched |
| Tables.Where | src/processing/data_cleaner.py:51 | `df[mask]`: exactly the rows satisfying the mask, in order, with the same columns |
| Tables.DropNA | src/processing/data_cleaner.py:44 | `dropna(subset=…)`: a row is kept exactly when it is an input row with no missing cell in the subset |
| Tables.Insert | src/processing/data_cleaner.py:54 | inserting into a sorted sequence keeps it sorted and adds exactly that element |
| Tables.SortBy | src/processing/data_cleaner.py:54 | the result is ordered by the key and is a permutation of the input |
| Tables.SortValues | src/processing/data_cleaner.py:54 | `sort_values(column)`: same columns, rows non-decreasing in that column, a permutation of the input rows |
| Tables.ResetIndex | src/processing/data_cleaner.py:54 | `reset_index(drop=True)`: row k keeps its cells and gets index label k; the index name is dropped |
| Tables.SortedRenumbered | src/evaluation/backtest.py:16 | after sort and renumbering: ordered by the column, numbered 0..n-1, and the rows' cells are a permutation of the input's |
| Tables.InsertIndex | src/ingestion/data_loader.py:30 | `reset_index()`: ValueError exactly when a column already has the index's name; otherwise the index becomes the first column and rows are numbered 0..n-1 |
| Tables.FilterMultiplicity | src/processing/data_cleaner.py:44-51 | a row filter keeps every copy of a kept row and none of a dropped one |
| Tables.FilterFilter | src/processing/data_cleaner.py:44-51 | two successive row filters equal one filter by their conjunction |
| Tables.FilterMap | src/processing/data_cleaner.py:44-51 | filtering after a row-wise transformation equals filtering before it by the composed test |
| Tables.MapPermutation | src/processing/data_cleaner.py:54 | a row-wise transformation maps permutations to permutations |
| Frames.Frame.Copy | src/processing/data_cleaner.py:19 | `df.copy()`: a new frame equal to the caller's table, which later edits cannot reach |
| Frames.Frame.Rename | src/processing/data_cleaner.py:24 | in-place `rename`: the frame becomes `Tables.Rename` of its old value |
| Frames.Frame.DropNA | src/processing/data_cleaner.py:44 | in-place `dropna`: KeyError naming exactly the absent subset labels with the frame unchanged, otherwise the frame becomes `Tables.DropNA` of its old value |
| Frames.Frame.SetColumn | src/processing/data_cleaner.py:45-47 | in-place column assignment: the frame becomes `Tables.Assign` of its old value |
| Frames.Frame.ResetIndex | src/ingestion/data_loader.py:30 | in-place `reset_index()`: the error of `Tables.InsertIndex` with the frame unchanged, otherwise its result |
| DataCleaner.Lower | src/processing/data_cleaner.py:23 | `lower()`: same length, every character lowered |
| DataCleaner.Strip | src/processing/data_cleaner.py:23 | `strip()`: the piece of the label after its leading whitespace, followed only by whitespace, neither starting nor ending with whitespace |
| DataCleaner.NormalizeShape | src/processing/data_cleaner.py:23 | a normalised label has no upper-case letter and no surrounding whitespace |
| DataCleaner.NormalizeIdempotent | src/processing/data_cleaner.py:23 | normalising a normalised label changes nothing |
| DataCleaner.Lowered | src/processing/data_cleaner.py:23-24 | renaming by the dict comprehension's mapping normalises every label |
| DataCleaner.ContainsIff | src/processing/data_cleaner.py:27-29 | Python's substring test holds exactly when the key occurs contiguously in the label |
| DataCleaner.RoleMatching | src/processing/data_cleaner.py:27-34 | all roles are matched exactly when some label contains each key, and each role is the first label, in column order, containing its key |
| DataCleaner.AbbreviatedVolume | src/processing/data_cleaner.py:23-34 | labels `" DATE "`, `"close_price"`, `"VOL"` give the KeyError listing `date`, `close_price`, `vol` |
| DataCleaner.NotStandard | src/processing/data_cleaner.py:23-41 | no normalised label is Date, Close or Volume |
| DataCleaner.CleanColumnAt | src/processing/data_cleaner.py:37-41 | after the role rename, a role column carries its standard label (the later one when it has two roles) and any other column its own label |
| DataCleaner.CleanColumnsDistinct | src/processing/data_cleaner.py:37-41 | the role rename leaves the labels distinct |
| DataCleaner.SharedRoles | src/processing/data_cleaner.py:37-44 | the standard labels absent after the rename are exactly those lost by one column taking two roles; none when the roles are distinct columns |
| DataCleaner.MissingStandard | src/processing/data_cleaner.py:44 | the KeyError of line 44 lists the absent standard labels in the order Date, Close, Volume |
| DataCleaner.CleanColumnsShape | src/processing/data_cleaner.py:23-41 | the cleaned labels are distinct, one per input column: the standard label for a role column, the normalised label for every other |
| DataCleaner.CoerceDate | src/processing/data_cleaner.py:45 | `to_datetime(errors='coerce')` on a cell: a timestamp or missing, and a timestamp is kept |
| DataCleaner.CoerceNumber | src/processing/data_cleaner.py:46-47 | `to_numeric(errors='coerce')` on a cell: a number or missing, and a number is kept |
| DataCleaner.Coerce | src/processing/data_cleaner.py:45-47 | a coerced row keeps its index label and width |
| DataCleaner.CoerceRoles | src/processing/data_cleaner.py:45-47 | the three in-place assignments leave the frame valid, with every row's three role cells coerced and nothing else changed |
| DataCleaner.CoercionAssigns | src/processing/data_cleaner.py:45-47 | the three column assignments equal coercing each row |
| DataCleaner.CoercedRow | src/processing/data_cleaner.py:45-47 | row k after the three assignments is row k with its role cells coerced |
| DataCleaner.StandardPositions | src/processing/data_cleaner.py:44 | after the rename, the subset labels Date, Close, Volume are present and resolve to the role positions |
| DataCleaner.CompleteRoles | src/processing/data_cleaner.py:44 | a row passes `dropna` exactly when none of its three role cells is missing |
| DataCleaner.SurvivesIff | src/processing/data_cleaner.py:44-51 | a row survives exactly when it passes the first dropna and, coerced, the second dropna and `Volume > 0` |
| DataCleaner.FilterPipeline | src/processing/data_cleaner.py:44-51 | drop, coerce, drop and the volume filter together keep exactly the coerced surviving rows, in input order |
| DataCleaner.SurvivorsExactly | src/processing/data_cleaner.py:44-51 | a row is among the survivors exactly when it is the coerced form of an input row that survives |
| DataCleaner.Clean | src/processing/data_cleaner.py:19-54 | the cleaner fails exactly when a role is unmatched or two roles fall on one column |
| DataCleaner.SortedSurvivors | src/processing/data_cleaner.py:51-54 | before renumbering: the cleaned labels, rows sorted by date, a permutation of the survivors |
| DataCleaner.CleanedLabels | src/processing/data_cleaner.py:23-41 | the output's columns are the role labels in the role columns and the normalised labels elsewhere; no index name |
| DataCleaner.CleanedOrder | src/processing/data_cleaner.py:54 | output rows are non-decreasing by date and numbered 0..n-1; equal dates are kept |
| DataCleaner.CleanedUsable | src/processing/data_cleaner.py:44-51 | every output row has a timestamp date, a numeric close and a positive numeric volume |
| DataCleaner.CleanedPermutation | src/processing/data_cleaner.py:44-54 | up to order, the output rows are exactly the coerced surviving input rows |
| DataCleaner.CleanStockData | src/processing/data_cleaner.py:19-54 | the step-by-step cleaner on a copy returns exactly `Clean`; the caller's table is a value and stays as it was |
| DataCleaner.CleanMatched | src/processing/data_cleaner.py:37-54 | once the roles are found: the dropna KeyError when two roles share a column, otherwise the cleaned table |
| DataCleaner.CleanComplete | src/processing/data_cleaner.py:45-54 | coerce, drop, filter, sort and renumber on the frame give the cleaned table |
| Backtest.Prepare | src/evaluation/backtest.py:16 | KeyError without Date; otherwise the rows are sorted by date, numbered 0..n-1, and their cells are a permutation of the input's |
| Backtest.SliceBound | src/evaluation/backtest.py:19-20 | Python's slice-bound normalisation: negative bounds count from the end and bounds are clamped to 0..len |
| Backtest.SplitPartition | src/evaluation/backtest.py:19-20 | train followed by test is the sorted table, for every n |
| Backtest.SplitSizes | src/evaluation/backtest.py:19-20 | for 0 < n ≤ len, test is the last n rows; n = 0 or n ≥ len gives an empty train and the whole table as test; negative n trains on the first -n rows |
| Backtest.NoLeakage | src/evaluation/backtest.py:16-20 | on the date-sorted table every training date is at most every test date |
| Backtest.TrainingInput | src/evaluation/backtest.py:23 | KeyError exactly when Date or CashInflow is absent from the train part, otherwise the columns ds and y |
| Backtest.TrainingInputRows | src/evaluation/backtest.py:23 | the forecaster sees row by row only the training dates and cash inflows |
| Backtest.JoinMembers | src/evaluation/backtest.py:39 | a joined row is exactly a forecast row paired with a test row of the same date |
| Backtest.JoinSize | src/evaluation/backtest.py:39 | with one forecast row per date, the join has one row per covered test row: at most the test size, equal to it when every test date is covered |
| Backtest.RelativeError | src/evaluation/backtest.py:44 | an absolute percentage error is never negative |
| Backtest.SquaredError | src/evaluation/backtest.py:45 | a squared error is never negative, and zero exactly for an exact forecast |
| Backtest.PerfectForecast | src/evaluation/backtest.py:45 | MSE ≥ 0, and MSE = 0 exactly when every joined forecast is exact |
| Backtest.PerfectPercentage | src/evaluation/backtest.py:44 | MAPE = 0 exactly when every joined forecast is exact |
| Backtest.Score | src/evaluation/backtest.py:44-50 | MAPE × 100 ≥ 0, and RMSE is the square root of MSE when sqrt returns roots |
| Backtest.Observations | src/evaluation/backtest.py:42-43 | y_true and y_pred pair each joined row's CashInflow with its yhat; an error exactly when an actual is not a number |
| Backtest.BacktestProphet | src/evaluation/backtest.py:16-51 | KeyError for missing Date or CashInflow, and for a yhat column once the forecast exists; it succeeds whenever the forecaster succeeds, the join is non-empty and the actuals are numbers; on success the forecaster got the training input, the metrics are `Score` of the joined test rows only, and MAPE ≥ 0 |
| OutlierDetector.Values | src/anomaly/outlier_detector.py:17-18 | the numbers of a column, missing cells skipped: a number is listed exactly when a cell holds it |
| OutlierDetector.Rank | src/anomaly/outlier_detector.py:17-18 | the quantile position (n-1)q split into an index below n and a fraction in [0, 1) |
| OutlierDetector.Interpolate | src/anomaly/outlier_detector.py:17-18 | linear interpolation lies between the sorted number at the index and the next |
| OutlierDetector.Quantile | src/anomaly/outlier_detector.py:17-18 | undefined exactly for a column with no numbers, otherwise between two of its numbers |
| OutlierDetector.QuantileMonotone | src/anomaly/outlier_detector.py:17-19 | a larger q never gives a smaller quantile, so Q1 ≤ Q3 and IQR ≥ 0 |
| OutlierDetector.QuantileExtremes | src/anomaly/outlier_detector.py:17-18 | the 0-quantile is the minimum and the 1-quantile the maximum |
| OutlierDetector.IqrFences | src/anomaly/outlier_detector.py:17-22 | the fences are undefined exactly without numbers and always enclose [Q1, Q3] |
| OutlierDetector.DetectOutliersIqr | src/anomaly/outlier_detector.py:16-25 | KeyError/TypeError exactly for an absent or non-numeric column; otherwise only Outlier_IQR is added, with rows, labels and other cells unchanged |
| OutlierDetector.IqrRule | src/anomaly/outlier_detector.py:21-24 | a cell is flagged exactly when it is a number strictly below Q1 - 1.5·IQR or strictly above Q3 + 1.5·IQR |
| OutlierDetector.IqrFlagged | src/anomaly/outlier_detector.py:24 | row k's Outlier_IQR is the rule applied to the row's cell with the column's fences |
| OutlierDetector.IqrInterquartile | src/anomaly/outlier_detector.py:19-24 | no number in [Q1, Q3] is flagged |
| OutlierDetector.IqrConstant | src/anomaly/outlier_detector.py:17-24 | a column whose numbers are all equal gets no IQR flag |
| OutlierDetector.ConstantNotFlagged | src/anomaly/outlier_detector.py:17-24 | with all numbers equal to c both quartiles are c, so neither c nor a missing cell is flagged |
| OutlierDetector.IqrIdempotent | src/anomaly/outlier_detector.py:16-24 | running the IQR rule on its own output gives the same table, unless the target is Outlier_IQR |
| OutlierDetector.Mean | src/anomaly/outlier_detector.py:42 | the mean is undefined exactly when there are no numbers |
| OutlierDetector.Variance | src/anomaly/outlier_detector.py:43 | the sample variance is undefined exactly below two numbers, never negative, and zero exactly when all numbers equal the mean |
| OutlierDetector.DetectOutliersZscore | src/anomaly/outlier_detector.py:41-47 | KeyError/TypeError exactly for an absent or non-numeric column; otherwise only Z_score and Outlier_Z are added, with rows, labels and other cells unchanged |
| OutlierDetector.WithScores | src/anomaly/outlier_detector.py:45-46 | assigning Z_score then Outlier_Z adds just those two labels and changes no other cell |
| OutlierDetector.ZCells | src/anomaly/outlier_detector.py:45-46 | row k's Z_score is `(x - mean) / std` for its cell and Outlier_Z is whether its absolute value exceeds the threshold |
| OutlierDetector.ZTest | src/anomaly/outlier_detector.py:45-46 | without the square root: a number x is flagged exactly when there are two or more numbers and (x - mean)² > threshold²·variance |
| OutlierDetector.ZFlagged | src/anomaly/outlier_detector.py:42-46 | row k is Z-flagged exactly when its cell is a number passing the squared test; a missing cell never is |
| OutlierDetector.ConstantScores | src/anomaly/outlier_detector.py:42-45 | a constant column has every score undefined (0/0) |
| OutlierDetector.ZConstant | src/anomaly/outlier_detector.py:45-46 | a constant column gets missing scores and no Z flag |
| ArAging.Portions | src/features/ar_aging.py:20-23 | `df['CashInflow'] * share` row by row |
| ArAging.BucketValues | src/features/ar_aging.py:20-23 | the four bucket columns are the inflow times 0.70, 0.20, 0.07 and 0.03, in that order |
| ArAging.ComputeAgingBuckets | src/features/ar_aging.py:19-24 | KeyError/TypeError exactly for an absent or non-numeric CashInflow; otherwise the four bucket labels are added, and rows, index labels and every other column are unchanged |
| ArAging.BucketsAssigned | src/features/ar_aging.py:20-23 | after the four assignments bucket i holds the i-th computed column |
| ArAging.BucketCells | src/features/ar_aging.py:20-23 | bucket i of row k is the row's inflow times share i, missing when the inflow is |
| ArAging.BucketsOfRow | src/features/ar_aging.py:20-23 | the four buckets of row k by name: 0.70, 0.20, 0.07 and 0.03 of the inflow |
| ArAging.BucketsSum | src/features/ar_aging.py:20-23 | the four buckets of a row add up to its inflow |
| ArAging.BucketsOrdered | src/features/ar_aging.py:20-23 | a non-negative inflow gives bucket_0_30 ≥ bucket_31_60 ≥ bucket_61_90 ≥ bucket_91_plus ≥ 0 |
| ArAging.MissingInflow | src/features/ar_aging.py:20-23 | a missing inflow leaves all four buckets of its row missing |
| DataLoader.FlatLabels | src/ingestion/data_loader.py:26-27 | tuple labels become their first level; plain labels are kept |
| DataLoader.Fetch | src/ingestion/data_loader.py:22-32 | the no-data error exactly for an empty download; a success has exactly the columns Date, Close, Volume and one row per downloaded row |
| DataLoader.FetchStockData | src/ingestion/data_loader.py:22-32 | flatten, then re-index in place, then project: returns exactly `Fetch` |
| DataLoader.FetchedRows | src/ingestion/data_loader.py:26-32 | for a Date-indexed download with Close and Volume, row k is (date, close, volume) of downloaded row k, numbered k |
| DataLoader.IndexedProjection | src/ingestion/data_loader.py:30-32 | after `reset_index()` the projection keeps, row by row, the index date, close and volume |
| DataLoader.IndexedRow | src/ingestion/data_loader.py:30-32 | row k of that projection |
| DataLoader.ProjectedRow | src/ingestion/data_loader.py:32 | the projection to Date, Close, Volume of one row of the re-indexed table |
| DataLoader.CashInflow | src/ingestion/data_loader.py:44-48 | KeyError exactly when Close or Volume is absent, TypeError when either is not numeric; otherwise CashInflow is added and rows, labels and other cells are unchanged |
| DataLoader.InflowIsProduct | src/ingestion/data_loader.py:48 | each row's CashInflow is Close × Volume, missing exactly when either is, and positive for positive close and volume |
| ProphetForecaster.PrepareForProphet | src/forecasting/prophet_forecaster.py:16-22 | KeyError when Date or CashInflow is absent, ValueError when a date does not parse; otherwise exactly the columns ds and y with row k's parsed date and inflow and its index label |
| ProphetForecaster.Prepared | src/forecasting/prophet_forecaster.py:20-21 | the successful case: two columns ds, y, same rows and order, ds parsed and y the inflow |
| ProphetForecaster.ProphetLabels | src/forecasting/prophet_forecaster.py:20 | the rename turns Date, CashInflow into ds, y |
| ProphetForecaster.ProjectedCells | src/forecasting/prophet_forecaster.py:20 | after the projection and rename row k holds exactly its Date and CashInflow cells |
| ProphetForecaster.AssignedRow | src/forecasting/prophet_forecaster.py:21 | overwriting ds changes only ds |
| Reals.SquaredTest | src/anomaly/outlier_detector.py:45-46 | for s the root of v and t ≥ 0, \|d / s\| > t exactly when d² > t²·v |
| Reals.SumNonNegative | src/evaluation/backtest.py:44-45 | a sum of non-negative errors is non-negative, and zero exactly when every term is zero |

## Left out

- The Prophet fit and predict steps are not modelled. This covers the model configuration and `make_future_dataframe` (backtest.py:26-36), and `forecast_cash_inflow`. The forecast is a parameter of `Backtest.BacktestProphet`, a function from the training input to a sequence of (ds, yhat) rows.
- `yf.download` is network I/O. `DataLoader.Fetch` starts from the downloaded table, given as a parameter.
- Plotting, CSV export, directory creation and the `print` logging are not modelled: they have no effect on the tables.
- Floating point is not modelled: arithmetic is over exact reals. So the four buckets sum exactly to the inflow, which IEEE doubles only approximate.
- `round(..., 2)` on the reported metrics is left out. `Backtest.Score` returns the unrounded MAPE × 100 and RMSE.
- Backtest.Score: `np.sqrt` is the parameter `sqrt`. RMSE is stated as a square root of MSE only when `sqrt` returns roots (`Reals.RootOf`).
- The standard deviation's `sqrt` in the Z-score rule is a parameter too. `OutlierDetector.ZTest` and `OutlierDetector.ZFlagged` assume it returns the root of the variance.
- OutlierDetector.ZCells: the flag is stated for the model's score, which is missing when the standard deviation is zero. pandas gives NaN for 0/0 but ±inf for a non-zero deviation over a zero std. With every number equal, that second case cannot arise, so the constant-column result is the same.
- `pd.to_datetime` and `pd.to_numeric` parsing of strings is not modelled. The element parsers are parameters (`DataCleaner.Parsers`, and the `parse` argument of `ProphetForecaster.PrepareForProphet`).
- Timestamps are integers on one clock, with no time zones or calendar.
- `Series.quantile`, `mean` and `std` are defined only on numeric columns (numbers and missing cells). A column holding strings, timestamps or booleans gives a TypeError in the model. Arithmetic on booleans or strings is likewise a TypeError, where pandas sometimes coerces.
- DataLoader.CashInflow: when both Close and Volume are non-numeric, the error names Close, the first column read.
- Lower-casing covers the ASCII letters only. Python's `str.lower` also folds other alphabets.
- Two input labels that normalise to the same label are excluded by precondition (`DataCleaner.Cleanable`): pandas' `rename` then yields duplicate columns, which the table model does not represent.
- Two tuple labels with the same first level are excluded likewise (`DataLoader.Loadable`).
- Tables.SortValues: sorting is an insertion sort on a real key, so only sortedness and permutation are promised. pandas' default sort is not stable, so nothing is stated about the order of rows with equal dates.
- The merge at backtest.py:39 is the inner join on date. Its column suffixes are modelled only where they change the result: a table that already has a `yhat` column gives `yhat_x` and `yhat_y`, so `merged['yhat']` raises a KeyError, and `Backtest.BacktestProphet` returns that KeyError. Other clashes (a `ds` column in the table) leave CashInflow and yhat unsuffixed and are not represented.
- The backtest requires every Date to be a timestamp. A table with other date cells is a TypeError in the model, where pandas would compare or raise depending on the types.
- sklearn's MAPE guards a zero actual with the float epsilon 2^-52 (`Backtest.Epsilon`). That constant is kept, but float behaviour near it is not.
