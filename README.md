# CancelGuard prediction core in Dafny

CancelGuard is a Dash dashboard that predicts whether a hotel booking will be
cancelled. It has three parts:

- a scikit-learn decision tree trained once at start-up on four numeric
  booking features (`lead_time`, `total_nights`, `adr`,
  `total_of_special_requests`);
- an inference function that turns a loose request dictionary into those
  four numbers;
- a presentation layer that echoes or resets the form and shows the verdict.

This project models the deterministic logic around the tree, and proves what
that logic promises:

- `wrappers.dfy`: `Option` and `Result`. A `Failure` stands for a Python
  exception.
- `frames.dfy`: the pandas operations the code uses.
  - A `Cell` is missing (`Null`), a number or text.
  - A `Row` maps column names to cells.
  - `DataFrame` is a class whose `columns` and `rows` are updated in place by
    `df[name] = ...` (`SetColumn`).
  - `dropna(how="all")` and `df[cols].dropna()` return new frames. They are
    specified through an order-preserving `Filter`.
- `etl.dfy`: what `load_data` does after the CSV read.
  - It recomputes `total_nights` whenever both night counts exist.
  - It then drops the rows whose cells are all missing.
- `model.dfy`: the inference boundary and the training-table preparation.
  - `predict_cancellation` checks the container. It applies Python's
    truthiness-based `x or default`: an explicit `0` nights becomes `1`. It
    converts with `float()`, fixes the feature order and thresholds strictly
    above `0.5`.
  - `load_model` conditionally derives `total_nights` and computes the
    ordered list of missing required columns. It keeps the complete rows,
    builds `X` and `y`, and wraps the fitted tree together with the four
    feature names.
  - The tree is an opaque function into `[0, 1]`. The seeded stratified
    split plus the fit form one opaque `Trainer`.
- `graphics.dfy`:
  - `pretty_label`.
  - The branch logic of the `predict_or_reset` callback. The trigger is an
    input enum. The components are reduced to tags.
  - The top-3 "most problematic segments" list.

One observation: `load_data` always creates `total_nights` when both night
columns exist. So the derivation guard inside `load_model` can never fire on
the table `load_data` returns (`Model.LoadDataLeavesNothingToDerive`). The
model keeps that branch in `Model.TrainOnTable`, which accepts any table.
`Model.LoadModel` composes `Etl.LoadData` with it.

Defaults follow Python's `or`, so every falsy value is replaced, not only a
missing key or `None`: `0`, `False`, `""` and an empty list are replaced too.

## Model

| member | source | states |
|---|---|---|
| `Frames.SumColumns` | src/etl.py:16-18 | `df[a] + df[b]`: one cell per row; the sum of two numbers; missing when either operand is missing |
| `Frames.AssignColumn` | src/etl.py:16 | `df[name] = values`: row i gets `values[i]` under `name`, every other column of every row is unchanged |
| `Frames.CompleteRows` | src/model.py:70 | `df[cols].dropna()`: a projected row is kept iff it is complete in `cols`, and each complete row is kept as many times as it occurs; the kept rows stay in original order |
| `Frames.DataFrame.SetColumn` | src/etl.py:16-18 | in-place column assignment: a new column goes last, an existing one keeps its position; the frame stays well formed |
| `Frames.DataFrame.DropEmptyRows` | src/etl.py:21 | `dropna(how="all")` returns a fresh well-formed frame with the same columns and the rows with at least one present cell |
| `Frames.DataFrame.SelectComplete` | src/model.py:70 | `df[cols].dropna()` returns a fresh well-formed frame with exactly `cols` and the complete rows |
| `Etl.DerivedColumns` | src/etl.py:15-18 | `total_nights` is added (last, if new) exactly when both night columns exist; existing columns keep their order; names stay unique |
| `Etl.DeriveRow` | src/etl.py:15-18 | with both night columns, the row's `total_nights` is the sum of its own two night cells, overwriting any old value; otherwise the row is unchanged; other columns never change |
| `Etl.DerivedRows` | src/etl.py:15-18 | the derivation is applied row by row, one output row per input row |
| `Etl.CleanedRows` | src/etl.py:15-21 | a derived row survives iff some cell is present; survivors keep their order; with both night columns every survivor has `total_nights` equal to its night sum; without them survivors are input rows unchanged |
| `Etl.CleanedRowsConcat` | src/etl.py:21 | cleaning distributes over concatenation: each row's fate depends on that row alone and the order is preserved |
| `Etl.CleanedSingleRow` | src/etl.py:15-21 | a single row is kept, with `total_nights` derived, iff one of its derived cells is present |
| `Etl.RowSurvival` | src/etl.py:15-21 | an all-missing row is always dropped; a row with a present cell outside `total_nights` always survives |
| `Etl.LoadData` | src/etl.py:7-23 | `df` gains or overwrites `total_nights` in place; the returned frame is new, with the derived columns and the cleaned rows |
| `Model.FeatureValue` | src/model.py:114-117 | `float(data.get(key) or default)`: falsy or missing gives the default; a truthy value gives its `float()`; an error, naming the key, iff a truthy value does not convert |
| `Model.Features` | src/model.py:113-122 | a 4-vector in the order `lead_time, total_nights, adr, total_of_special_requests` with each component from its own key; on failure the error is the first key in that order that fails |
| `Model.PredictCancellation` | src/model.py:99-127 | a missing or foreign container is rejected whatever the data; otherwise it succeeds iff the features convert; `prob` is the tree's value on the feature vector, in [0, 1]; `pred == 1` iff `prob > 0.5`, so 0.5 gives 0 |
| `Model.EmptyRequestDefaults` | src/model.py:114-122 | an empty request yields exactly `[0, 1, 0, 0]` |
| `Model.DefaultSubstitution` | src/model.py:114-117 | a falsy value, including an explicit 0, becomes the default; a non-zero number passes through unchanged |
| `Model.ZeroNightsReadAsOne` | src/model.py:115 | an explicit `total_nights` of 0 is read as 1 |
| `Model.TruthyNonNumericIsError` | src/model.py:114-117 | a truthy value that `float()` rejects makes feature extraction and prediction fail instead of defaulting |
| `Model.OnlyFeatureKeysMatter` | src/model.py:113-124 | two requests that agree on the four feature keys get the same result |
| `Model.OtherKeysIgnored` | src/model.py:113-124 | setting any other key, such as `hotel` or `market_segment`, never changes the result |
| `Model.PreparedColumns` | src/model.py:47-54 | the original columns stay first and in order; `total_nights` is added, at most once and last, exactly when it is absent and both night columns exist; on a duplicate-free list the result equals `load_data`'s own column derivation |
| `Model.PreparedRows` | src/model.py:47-54 | `total_nights` is derived only when absent and both night columns exist, and then it is the only column added to each row; an existing one is untouched; other cells never change |
| `Model.MissingColumns` | src/model.py:56-63 | exactly the required columns absent from the table, in required-column order |
| `Model.TrainingRows` | src/model.py:69-70 | every kept training row has exactly the five required columns, all present; every row complete in them is kept, with its multiplicity; rows keep their order |
| `Model.FeatureMatrix` | src/model.py:72 | `X` has one 4-cell row per training row, column j taken from feature name j, never missing for a complete row |
| `Model.Labels` | src/model.py:73 | `y` holds each training row's `is_canceled` cell |
| `Model.ModelFromTable` | src/model.py:47-96 | fails with the missing list iff it is non-empty; succeeds iff no required column is missing and the trainer fits `X`, `y`; any other failure is the trainer's; on success `feature_names` is exactly the four features in order and the tree is what the trainer fitted |
| `Model.MissingLabelIsFatal` | src/model.py:56-67 | a table without `is_canceled` is refused, and the error lists it |
| `Model.SharedFeatureLayout` | src/model.py:72-96 | training column i and inference component i both come from the container's `feature_names[i]` |
| `Model.LoadDataLeavesNothingToDerive` | src/model.py:45-54 | after `load_data`, `load_model`'s derivation guard is always false |
| `Model.TrainOnTable` | src/model.py:47-96 | conditionally adds `total_nights` in place, then returns exactly `ModelFromTable` of the table it was given |
| `Model.LoadModel` | src/model.py:38-96 | `load_data`, then the rest of `load_model`, on the read table |
| `Graphics.PrettyLabel` | src/graphics.py:15-42 | a mapped name gives exactly its label; any other name gives a string of the same length with no `_`, the first character not lower case, the rest not upper case, and the same letters as the name with `_` read as space |
| `Graphics.RequestData` | src/graphics.py:517-527 | the request dictionary carries the four numeric form values under the feature keys |
| `Graphics.FirstPresent` | src/graphics.py:507-511 | `df[col].dropna().unique()[0]`: the first present cell in row order; none (the call raises) iff the column is absent or has no present cell |
| `Graphics.ResetForm` | src/graphics.py:495-514 | a reset succeeds iff the means and every categorical column have a value. Special requests become 0, the numeric inputs become the given means, and each categorical input becomes its column's first present value |
| `Graphics.PredictOrReset` | src/graphics.py:462-613 | no trigger: echo and no update; reset: reset form and both outputs cleared, or raise; predict: the nine inputs echoed; on error the fixed red error text and no overlay; on success the card is exactly a red "SE CANCELA" or green "NO SE CANCELA" headline, the percentage, and the warning box iff `pred == 1`; the overlay is present iff `pred == 1` |
| `Graphics.SortByRate` | src/graphics.py:291-296 | the groups sorted by non-increasing cancellation rate, a permutation of the input |
| `Graphics.TopSegments` | src/graphics.py:291-298 | `min(3, n)` groups, non-increasing, a sub-multiset of the input, and no group left out has a higher rate than one kept |
| `Graphics.Recommendations` | src/graphics.py:290-306 | the single fallback bullet when `market_segment` or `is_canceled` is missing; otherwise one bullet per top segment, in order, showing its rate times 100; never more than 3, percentages non-increasing |

## Left out

- The CSV read (`pd.read_csv`) and the default data path are not modelled. `Etl.LoadData` and `Model.LoadModel` take the table that was read.
- The decision tree's fitting and `predict_proba` are library code. The tree is an opaque `Tree` into `[0, 1]`. The seeded stratified `train_test_split` plus the fit with `max_depth=8`, `min_samples_leaf=30` and balanced class weights form one opaque `Trainer`. Its hyper-parameters, determinism and the stratification tolerance are not stated. The held-out partition is never used, so it does not appear.
- What the fitted tree predicts for particular bookings is not stated, because it depends on what the library learns. Repeated inference on one container gives the same answer because every member here is a function of its inputs.
- How Python's `float()` parses a string is a parameter (`StringToFloat`). The grammar of numeric strings is library behaviour.
- NaN and infinities are not modelled: numbers are exact reals.
- Frames.AddCells: text operands give a missing cell. pandas would concatenate two strings or raise on text plus a number.
- Duplicate column names are not modelled: a `DataFrame` has unique column names.
- Graphics.PrettyLabel: Python's Unicode `str.capitalize` is modelled on ASCII letters only. Other characters are left unchanged. Unicode case mappings such as `ß` to `Ss` would change the length.
- Graphics.ResetForm: the three column means (`int(mean)` and `round(mean, 2)`) are given as inputs, or as None where computing them raises. Floating-point means and rounding are not modelled.
- Graphics.PredictOrReset: the probability line holds `prob * 100` without the two-decimal formatting. Styles, component ids and the overlay's texts are reduced to tags. `dash.callback_context` becomes the `Trigger` input.
- Graphics.Recommendations: the percentage is `rate * 100` without the one-decimal rounding.
- Graphics.TopSegments: the `groupby("market_segment")["is_canceled"].mean()` step is library code. Its output, one rate per segment, is the input. A segment whose labels are all missing (a NaN rate) is not modelled. pandas leaves the order of equal rates unspecified, so the model fixes one order. The proved properties do not depend on it.
- The layouts (`layout_exploration`, `layout_predictor`, `create_layout`), the figures of `update_hist` and `update_bar`, and `app.py` (bootstrap, logging, server start) are UI wiring and are not modelled.
