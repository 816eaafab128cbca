# Semiconductor abnormality dashboard — Dafny model

The dashboard (`dashboard.py`) is a Streamlit page over the Wafer sensor data
set. Around its widget and plot calls it holds a small amount of its own logic,
which this project models and proves properties of:

- **Correlation engine** (`pair_wise`, module `Correlation`): the absolute
  Pearson matrix of the feature columns is band-filtered, keeping a coefficient
  only when it lies strictly between 0.7 and 1 (`None` stands for pandas NaN),
  and then two rows are appended one after the other: "No. of pairs" (the
  per-column count of kept cells) and "Sum of pairs" (the per-column sum, taken
  over the table *after* the count row was added, so it includes the count).
- **Correlation grid** (module `Layout`): the attribute names read back from
  the table (labels starting with `att`), the position of the selected
  attribute, the ordered "correlated with" list, and the grid loop that places
  cell `i` at `(i mod 8, -(i div 8))`, colours it red for the selected
  attribute, grey for an undefined value and orange otherwise, and gives it a
  hover text.
- **Training data preparation** (module `Dataset`): the label recoding
  `b'1' -> 1`, `b'-1' -> 0` (any other value left as it is) and the per-class
  mean of every feature column, undefined for a class without rows.
- **Session record store** (module `Records`): a class holding the
  `selected_records` list with `AddRecord` (classify, label, append),
  `RemoveRecord` (bounds-checked delete) and `Reset`.

The classifier `rf_model.predict` is a function-valued parameter
`predict: Input -> int`, and the `.4f` number formatting a parameter
`format: real -> string`. Correlation coefficients and means are exact reals.
The feature columns are all columns but the last, the label column
(`dashboard.py:40`).

Three points about the code's behaviour are easy to misread:

- An unknown label value is not rejected: `replace` leaves it unchanged, and
  such a row then belongs to neither class (`Dataset.Relabel`,
  `Dataset.ClassRows`).
- The recoded training labels and the displayed labels use the same
  convention: `b'-1'` is recoded to 0, which is also the classifier output
  shown as "abnormal" (`Records.LabelsAgreeWithTrainingCodes`).
- "Sum of pairs" includes the count row as well as the kept coefficients (see
  Findings).

## Model

| member | source | states |
|---|---|---|
| `Correlation.Abs` | dashboard.py:21 | the absolute value of a coefficient is non-negative and equals it or its negation |
| `Correlation.Band` | dashboard.py:22 | a coefficient is kept iff it lies strictly between 0.7 and 1, and a kept cell holds that coefficient |
| `Correlation.Filter` | dashboard.py:21-22 | the filtered frame has one row per matrix row, each the band filter applied cell by cell to the absolute coefficients |
| `Correlation.FilterCell` | dashboard.py:21-22 | a cell of the filtered frame is defined iff 0.7 < abs(coefficient) < 1, and then holds the absolute coefficient |
| `Correlation.PerfectCorrelationUndefined` | dashboard.py:22 | a coefficient of exactly 1 or -1, in particular every self-correlation, is undefined after the filter |
| `Correlation.FilterSymmetric` | dashboard.py:21-22 | the filter keeps a symmetric correlation matrix symmetric |
| `Correlation.Count` | dashboard.py:24 | the count of defined cells of a column never exceeds the column's length |
| `Correlation.CountIsDefinedIndices` | dashboard.py:24 | "No. of pairs" of a column equals the number of its defined cells (the size of the set of their row indices) |
| `Correlation.SumDefined` | dashboard.py:25 | pandas `sum()` of a column skips undefined cells: a column without defined cells sums to 0 |
| `Correlation.CountBelowLength` | dashboard.py:24 | a column with an undefined cell counts fewer pairs than it has rows |
| `Correlation.NoOfPairsExcludesSelf` | dashboard.py:21-24 | with a unit diagonal a feature is never counted as paired with itself: its "No. of pairs" is below the number of features |
| `Correlation.SumDefinedBounds` | dashboard.py:22-25 | the sum of a column's kept cells is 0 with no pairs, and strictly between 0.7·c and c with c > 0 pairs |
| `Correlation.PairWise` | dashboard.py:20-26 | the table is the n filtered feature rows, then "No. of pairs" = per-column count of defined cells, then "Sum of pairs" = per-column sum of defined cells plus that count, because the sum is taken after the count row is appended |
| `Correlation.SumOfPairsBounds` | dashboard.py:24-25 | the "Sum of pairs" value of a column with c pairs is 0 when c = 0 and strictly between 1.7·c and 2·c otherwise |
| `Correlation.SumOfPairsCountsTheCount` | dashboard.py:24-25 | for two features with coefficient 0.8 the first column holds one pair of value 0.8, yet its "Sum of pairs" is 1.8 |
| `Correlation.SumOfPairsExample` | dashboard.py:20-26 | on the two-feature matrix with coefficient 0.8, the table pair_wise returns holds 1 in "No. of pairs" and 1.8 in "Sum of pairs" for the first column |
| `Correlation.PairWiseCorrected` | dashboard.py:24-25 | the corrected table: same feature rows and count row, and "Sum of pairs" equal to the sum of the kept coefficients alone |
| `Layout.AttributeNames` | dashboard.py:54 | every attribute name read from the table starts with "att", and there are at most as many as table rows |
| `Layout.SummaryLabelsAreNotAttributes` | dashboard.py:54 | neither "No. of pairs" nor "Sum of pairs" starts with "att" |
| `Layout.AttributeNamesOfPairWise` | dashboard.py:51-54 | on the pair_wise table over "att" features the attribute names are exactly the feature names, in order; the summary rows are excluded |
| `Layout.IndexOf` | dashboard.py:91 | the position of the selected name is its first occurrence in the list |
| `Layout.CorrelatedWith` | dashboard.py:93 | the "correlated with" list is no longer than the shorter of names and row (zip truncation) |
| `Layout.CorrelatedWithSelects` | dashboard.py:93 | the "correlated with" list is exactly the names at the ascending positions of the defined cells of the selected row |
| `Layout.CorrelatedWithLength` | dashboard.py:93 | the number of names listed equals the number of defined cells in the selected row |
| `Layout.RowIsColumn` | dashboard.py:101 | for a symmetric matrix the selected attribute's filtered row equals its filtered column, the one "No. of pairs" counts |
| `Layout.ColorOf` | dashboard.py:114-119 | red iff the cell is the selected one; grey iff not selected and undefined; orange iff not selected and defined |
| `Layout.HoverText` | dashboard.py:122 | the hover text is "Correlation: " plus the formatted value when defined, and the attribute name otherwise |
| `Layout.BuildGrid` | dashboard.py:104-135 | one cell per zipped attribute; cell k has 0 <= x < 8, y <= 0 and k = 8·(-y) + x, the colour and hover text of the rule, and the attribute name as its text |
| `Layout.CorrelatedLabelsMatch` | dashboard.py:93-119 | when the selected attribute's own cell is undefined, the names in the orange cells, in grid order, are exactly the "correlated with" list |
| `Layout.ShowCorrelations` | dashboard.py:51-122 | the visualization page end to end: attribute names = feature names, the selected position, the ordered "correlated with" list (as long as the selected attribute's "No. of pairs" for a symmetric matrix), the grid, and orange cells = listed names when self-correlation is 1 |
| `Dataset.Relabel` | dashboard.py:32 | b'1' becomes 1, b'-1' becomes 0, and every other value is left unchanged |
| `Dataset.RelabelTargets` | dashboard.py:32 | the recoding keeps every row's features and position and recodes its label |
| `Dataset.RelabelIdempotent` | dashboard.py:32 | recoding an already recoded label changes nothing |
| `Dataset.ClassRows` | dashboard.py:34-37 | the rows selected for a class all carry that class's code and are rows of the data, no more of them than rows |
| `Dataset.ClassRowsComplete` | dashboard.py:34-37 | every row carrying a class's code is among the rows selected for that class |
| `Dataset.ClassRowsMultiset` | dashboard.py:34-37 | each row occurs in a class's selection exactly as often as in the data when it carries that class's code, and not at all otherwise |
| `Dataset.Mean` | dashboard.py:35 | the mean is undefined iff there are no rows; otherwise mean times row count equals the column total |
| `Dataset.ClassMeans` | dashboard.py:34-38 | the mean vector of a class has one entry per feature column, each the mean of that column over the class's rows |
| `Dataset.ClassMeansUndefinedIffEmpty` | dashboard.py:34-38 | every class mean is undefined iff the class has no rows, and every one is defined iff it has some |
| `Dataset.MeanWithinBounds` | dashboard.py:34-38 | a defined class mean lies between any lower and upper bound of that column's values over the class's rows |
| `Dataset.ClassesPartitionRows` | dashboard.py:32-37 | when every label is b'1' or b'-1', after recoding each row is in exactly one of the two classes |
| `Dataset.MeanOfTwo` | dashboard.py:35 | the mean of two rows is the midpoint of their values |
| `Dataset.AlternatingLabelsClasses` | dashboard.py:34-37 | with labels 1, 0, 1, 0 the normal rows are rows one and three and the abnormal rows two and four |
| `Dataset.AlternatingLabelsExample` | dashboard.py:34-38 | on the four rows [1,2], [3,4], [5,6], [7,8] labelled 1, 0, 1, 0 the normal mean is [3, 4] and the abnormal mean [5, 6] |
| `Records.PredictionLabel` | dashboard.py:186-189 | the label is "abnormal" iff the classifier output is 0, and "normal" iff it is anything else |
| `Records.LabelsAgreeWithTrainingCodes` | dashboard.py:184-189 | a classifier answering with the recoded training label shows "normal" for b'1' and "abnormal" for b'-1' |
| `Records.Removed` | dashboard.py:195-197 | an in-range delete drops exactly the record at the index and keeps the others in order; an out-of-range one leaves the list unchanged |
| `Records.RecordStore.constructor` | dashboard.py:178-179 | a new session starts with an empty list |
| `Records.RecordStore.AddRecord` | dashboard.py:182-193 | the returned label is the classifier output's label, and the list grows by exactly that record at the end, the earlier records unchanged |
| `Records.RecordStore.RemoveRecord` | dashboard.py:195-197 | the new list is the old one with the record at the index removed when the index is in range, and unchanged otherwise |
| `Records.RecordStore.Reset` | dashboard.py:309-310 | the list is empty afterwards |
| `Records.RemoveUndoesAdd` | dashboard.py:191-197 | deleting the record just appended, at its index, restores the previous list |
| `Records.RemoveAfterReset` | dashboard.py:195-197 | on the empty list left by a reset, every delete is a no-op |
| `Records.RemovedMultiset` | dashboard.py:195-197 | an in-range delete removes exactly one occurrence of the record at the index and nothing else |
| `Records.PredictionPageScenario` | dashboard.py:285-311 | with a classifier that always answers 0, Predict shows "abnormal"; after three submissions a delete at a position past the list leaves the three records, and after Reset the list stays empty under a delete |

## Findings

| source | as written | input that shows it | evidently intended | confidence | as-written member | corrected member |
|---|---|---|---|---|---|---|
| dashboard.py:24-25 | "Sum of pairs" is `corr_df.sum()` taken after the "No. of pairs" row was appended, so each column's sum includes its own count | two features with Pearson coefficient 0.8: column one holds a single pair of 0.8 and reports "Sum of pairs" 1.8 | the sum of the kept coefficients, 0.8 | medium, not executed | `Correlation.SumOfPairsCountsTheCount` | `Correlation.PairWiseCorrected` |

The page itself goes on modelling the code as written (`Layout.ShowCorrelations`
calls `Correlation.PairWise`); the grid and the "correlated with" list read only
the feature rows, on which the two tables agree.

## Left out

- Streamlit widgets, page routing, sliders, buttons, `st.experimental_rerun` and the two-second spinner (dashboard.py:42-47, 199-313): user interface plumbing.
- ARFF loading (dashboard.py:13-18) and pickle loading with its error message (dashboard.py:171-176): file I/O. When the model fails to load, pressing Predict reaches an undefined `rf_model` and the script run stops before anything is appended; `Records.RecordStore.AddRecord` takes a loaded classifier.
- The classifier's internals: `predict` is an opaque function parameter.
- The Pearson computation of `corr()` and the floating-point `.mean()`: the coefficients are an input over exact reals, and the bounds 0.7 and 1 are exact; a NaN coefficient from a constant column is not representable in the input.
- The mean line chart (dashboard.py:60-84), Plotly figure construction and styling, and the exact `.4f` formatting (a parameter `format`).
- The ", ".join of the correlated names and its display (dashboard.py:94, 161-163): text rendering.
- CSV export and base64 encoding (dashboard.py:315-321): thin wrappers over library code.
- Negative indices to `remove_record`: Python would delete from the end, but the only caller passes `delete_index - 1 >= 0` (dashboard.py:301-305), so the index is a `nat`.
- The readings of a record are a `map`, so the key order that fixes the CSV column order is not captured.
- Layout.ShowCorrelations: requires every feature name to start with "att" (true of the Wafer columns att1…att152); with other names the attribute list would skip them and the row index at dashboard.py:101 would no longer line up, which is not modelled.
