# Windowed forecasting models: windows, normalisation and the MLP input

This project is a Dafny model of two parts of neuralforecast.

- **`BaseWindows` window pipeline** (`neuralforecast/common/_base_windows.py`):
  - `_create_windows` turns one batch of series into windows of `input_size + h` steps, for the train, val and predict phases. The train phase cuts off the val and test segments, pads `h` zeros, unfolds, then keeps only windows whose horizon has an observed value. It may also draw `windows_batch_size` of them at random. The val and predict phases slice the end of the series. Predict pads only when there is no test segment and no future exogenous channel.
  - `_normalization` standardises the target channel of each window in place, using the masked mean and std of that window's lookback alone.
  - `_inv_normalization` undoes that standardisation on a forecast.
  - `_parse_windows` splits the windows into lookback and horizon. It also picks out the historic, future and static exogenous channels.
  - The configuration that `__init__`, `fit`, `predict` and `set_test_size` record.
- **`MLP` model** (`neuralforecast/models/mlp.py`):
  - the width of its first layer;
  - the stack of linear layers it builds;
  - how `forward` flattens and concatenates the parsed parts into one input row per window.

## Layout

- `tensors.dfy` (`Tensors`):
  - tensors are nested sequences: a temporal batch is `[series][channel][time]`, windows are `[window][time][channel]`;
  - shape predicates;
  - Python's negative slice ends;
  - masked sums;
  - row-major flattening;
  - `unfold` followed by `permute(0, 2, 3, 1)` and `reshape`.
- `windows.dfy` (`Windows`):
  - the pipeline as functions (`TrainWindows`, `EvalWindows`, `CreatedWindows`, `MomentsOf`, `InvNormalization`, `ParseWindows`);
  - the class `BaseWindows`, whose fields are the configuration that `fit`, `predict` and `set_test_size` update;
  - its methods compute windows by rebinding the temporal tensor step by step, as the source does;
  - `Normalization` writes into a 3-dimensional array in place.
- `window_properties.dfy`, `normalization_properties.dfy`, `parse_properties.dfy`: lemmas about the pipeline.
- `mlp.dfy` (`Mlp`) and `mlp_properties.dfy`: the MLP's architecture and the concatenation in `forward`.

## Exogenous inputs

- **Random draw:** `np.random.choice` is a function parameter `choice`. `IsChoice` requires every draw it returns to be one numpy could make: the right size, in range, and without repeats when sampling without replacement.
- **Sampling:** the draw is made with replacement exactly when there are fewer windows than `windows_batch_size`. Numpy raises on an empty population, and the model returns that case as the error `EmptyPopulation`.
- **Square root:** `torch.sqrt` is a parameter `sqrt`. It is constrained by `IsSqrt` only where a lemma needs it.
- **Channel positions:** pandas `get_loc` / `get_indexer` lookups are parameters: the channel indices `yIdx`, `maskIdx`, `histIdx`, `futrIdx`, `statIdx`.

## Source behaviour worth knowing

- **Window count:** the train phase pads `h` zeros before `unfold`, so each padded step adds one window. A series of 100 steps with `input_size = 10`, `h = 5` and `step_size = 1` therefore gives 100 + 5 - 15 + 1 = 91 raw train windows (`HundredStepsGiveNinetyOneWindows`).
- **Statics:** the dictionaries `_create_windows` builds (`_base_windows.py:127-129` and `158-160`) hold `temporal`, `static = None` and `temporal_cols`, but no `static_cols` key. With a non-empty `stat_exog_list`, `_parse_windows` reads `windows['static_cols']` at line 232, which raises a `KeyError` before line 233 is reached. The model returns this failure as the error `MissingStatic`. A batch whose static part is absent stands for the missing key (`StaticListAlwaysFails`).
- **Predict's `test_size`:** `predict` binds a `test_size` argument (line 343) but never reads it. The predict cutoff therefore uses the `test_size` set by `fit` or `set_test_size`.
- **Defaults in `MLP`:** `MLP.__init__` passes `windows_batch_size` and `step_size` into `**trainer_kwargs` rather than to `BaseWindows`, so they keep the defaults `None` and 1. `Mlp.MLP.constructor` states this, together with `val_size = test_size = 0`, no `predict_step_size` and no normalisation.
- **Predict with future exogenous channels:** with a non-empty `futr_exog_list`, `test_size == 0`, `h > 0` and `input_size > 0`, predict never produces a window. The cutoff at lines 136-137 keeps at most `input_size` steps. The padding at lines 147-148 is skipped because the future list is not empty. So `unfold` at lines 150-152 always fails (`PredictWithFutrAndNoTestFails`).
- **Static rows against windows:** `stat_exog` has one row per series, but `MLP.forward` reshapes it to one row per window (`mlp.py:116-117`). The two counts agree only when every series yields exactly one window. `MlpProperties.ParsedWindowsFitFirstLayer` requires that the static part has one row per window, so it does not cover this mismatch. The mismatch is never reached in the code as written, because `_parse_windows` already raises a `KeyError` for statics (see **Statics** above).

## Model

| member | source | states |
|---|---|---|
| Windows.BaseWindows.constructor | neuralforecast/common/_base_windows.py:36-56 | records `h`, `input_size`, the three exogenous lists and `normalize`; `windows_batch_size` is None, `val_size` and `test_size` are 0, `step_size` is 1, and there is no `predict_step_size` yet |
| Windows.BaseWindows.Fit | neuralforecast/common/_base_windows.py:331-332 | sets `val_size` and `test_size` and leaves the other configuration unchanged |
| Windows.BaseWindows.Predict | neuralforecast/common/_base_windows.py:353 | sets `predict_step_size` and leaves the rest unchanged |
| Windows.BaseWindows.SetTestSize | neuralforecast/common/_base_windows.py:384-385 | sets `test_size` only |
| Windows.BaseWindows.CreateWindows | neuralforecast/common/_base_windows.py:91-163 | the step-by-step method computes exactly `CreatedWindows` of the object's current configuration |
| Windows.BaseWindows.CreateTrainWindows | neuralforecast/common/_base_windows.py:97-130 | the cutoff, pad, unfold, filter and sample sequence computes exactly `TrainWindows` |
| Windows.BaseWindows.CreateEvalWindows | neuralforecast/common/_base_windows.py:132-161 | the val/predict slice, the conditional pad and the unfold compute exactly `EvalWindows` |
| Windows.BaseWindows.WindowStatistics | neuralforecast/common/_base_windows.py:170-190 | one mean and one std per window, no std is 0, and each pair is the lookback moments of its window |
| Windows.BaseWindows.Normalization | neuralforecast/common/_base_windows.py:165-198 | in place: the new array is the old one with only the target standardised by each window's own lookback moments; the returned statistics are those moments and never have std 0 |
| Windows.BaseWindows.StandardizeTarget | neuralforecast/common/_base_windows.py:192-194 | the in-place writes leave the array equal to `NormalizeY` of its old contents: the target standardised per window, every other channel unchanged |
| Windows.Unfolded | neuralforecast/common/_base_windows.py:103-110 | succeeds exactly when the step is positive and the axis holds a window; it then gives `series * NumWindows` windows of `[size, C]` |
| Windows.TrainCut | neuralforecast/common/_base_windows.py:98-100 | the cut keeps every series and channel, and each kept step is unchanged |
| Windows.TrainRawWindows | neuralforecast/common/_base_windows.py:97-110 | succeeds exactly when `step_size > 0` and the padded cut holds a window; it then has `series * NumWindows(cut + h)` windows of `[input_size + h, C]` |
| Windows.ObservedFrom | neuralforecast/common/_base_windows.py:112-116 | strictly increasing in-range positions, and a position is listed iff its horizon mask sum is positive |
| Windows.FilterObserved | neuralforecast/common/_base_windows.py:112-116 | keeps, in order, exactly the windows with an observed horizon, and every such window appears |
| Windows.Sample | neuralforecast/common/_base_windows.py:119-124 | without a batch size, returns the windows as they are; with one, fails iff there are no windows; otherwise returns exactly that many windows, each taken from the population |
| Windows.TrainWindows | neuralforecast/common/_base_windows.py:97-124 | definition: raw windows, then the availability filter, then sampling; its outcome, shape and observed horizons are stated by `TrainWindowsOutcome`, `TrainWindowsShape` and `TrainWindowsObserved` |
| Windows.HasObservedHorizon | neuralforecast/common/_base_windows.py:112-116 | definition: the sample condition, a positive sum of the mask over the last `h` steps |
| Windows.IsChoice | neuralforecast/common/_base_windows.py:119-124 | definition: every draw `np.random.choice(n, size, replace)` can return has `size` in-range positions, distinct without replacement |
| Windows.PadsForPredict | neuralforecast/common/_base_windows.py:147-148 | definition: padding happens in the predict phase only, with `test_size == 0` and no future exogenous channels |
| Windows.EvalStride | neuralforecast/common/_base_windows.py:133-152 | definition: the unfold step is `predict_step_size` for predict and `step_size` for val |
| Windows.MaskedMean | neuralforecast/common/_base_windows.py:182-183 | definition: `y_means`, the masked sum over `mask_safe`; the value is stated by `MomentsOf`, `MeanOfConstant` and `StandardizedLookbackIsCentred` |
| Windows.MaskedStd | neuralforecast/common/_base_windows.py:184-185 | definition: `y_stds` before the clamps; its value for an observed lookback is stated by `ObservedLookbackStd` |
| Windows.LookbackMoments | neuralforecast/common/_base_windows.py:172-189 | definition: the statistics of one window, taken over its lookback columns only; see `LookbackIgnoresHorizon` |
| Windows.LookbackColumn | neuralforecast/common/_base_windows.py:172-173 | `w[:-h, c]`: the lookback has `PyNeg(|w|, h)` steps, so it is empty when `h == 0` (Python's `:-0`). Its values are stated by `ParseSplitsTargetAndMask` and `NormalizedLookback` |
| Windows.HorizonColumn | neuralforecast/common/_base_windows.py:113-114 | `w[-h:, c]`: the horizon has `|w| - PyNeg(|w|, h)` steps, so it is the whole window when `h == 0` (Python's `-0:`). What the filter does with it is stated by `ZeroHorizonUnobserved` and `PaddedHorizonIsDropped` |
| Windows.Gather | neuralforecast/common/_base_windows.py:219-227 | `w[from:to, idx]`: `to - from` rows of `|idx|` channels. Its values are stated by `ParseHistExog` and `ParseFutrExog` |
| Windows.Product | neuralforecast/common/_base_windows.py:182 | `temporal_y * temporal_mask`, element-wise and of the same length. Its sum's meaning is stated by `MaskedMeanIs` |
| Windows.Deviations | neuralforecast/common/_base_windows.py:184 | `mask * (y - mean) ** 2`, element-wise and of the same length. What standardising does to its sum is stated by `StandardizedSquares` |
| Windows.NormalizeY | neuralforecast/common/_base_windows.py:192-194 | definition: the target channel becomes `(y - mean) / std` per window; `NormalizeYKeepsOtherChannels` and `NormalizedLookback` state the rest of the tensor is unchanged |
| Windows.EvalBounds | neuralforecast/common/_base_windows.py:134-145 | the predict and val slice bounds satisfy `0 <= a <= z <= length` |
| Windows.EvalCut | neuralforecast/common/_base_windows.py:134-148 | step `t` of the cut is step `a + t` of the series inside the slice and 0 in the predict padding |
| Windows.EvalWindows | neuralforecast/common/_base_windows.py:132-161 | every val/predict window is `[input_size + h, C]` |
| Windows.CreatedWindows | neuralforecast/common/_base_windows.py:91-163 | the error is `UnknownStep` iff the step is none of train/predict/val; a result carries no statics and keeps the column names |
| Windows.SafeDenominator | neuralforecast/common/_base_windows.py:176-180 | `mask_safe` is never 0 and equals the mask sum whenever that sum is not 0 |
| Windows.MomentsOf | neuralforecast/common/_base_windows.py:176-189 | std is never 0; a mask sum of 0 gives std 1; otherwise the mean is the masked sum over the mask sum |
| Windows.InvNormalization | neuralforecast/common/_base_windows.py:200-206 | keeps the batch size and whether the output has a trailing multi-output axis |
| Windows.ParseWindows | neuralforecast/common/_base_windows.py:208-238 | fails, with `MissingStatic`, exactly when a static list is given but no statics are; `hist_exog`, `futr_exog` and `stat_exog` are each None iff their list is empty |
| Windows.NormalizeYElements | neuralforecast/common/_base_windows.py:192-194 | an array that agrees element by element with the standardised target, and elsewhere with the input, is `NormalizeY` of the input |
| WindowProperties.TrainWindowAt | neuralforecast/common/_base_windows.py:97-110 | raw train window `k` of series `s` holds, at step `t`, step `k*step_size + t` of the cut series, or 0 once that runs past the cut |
| WindowProperties.TrainWindowCount | neuralforecast/common/_base_windows.py:97-110 | each series yields `(cut - input_size) / step_size + 1` raw windows |
| WindowProperties.TrainCutRemovesValAndTest | neuralforecast/common/_base_windows.py:98-100 | the cut drops the last `val_size + test_size` steps, or everything when they exceed the length |
| WindowProperties.HundredStepsGiveNinetyOneWindows | neuralforecast/common/_base_windows.py:97-110 | 100 steps with `input_size 10`, `h 5`, `step 1` give 91 windows |
| WindowProperties.PaddedHorizonIsDropped | neuralforecast/common/_base_windows.py:102-116 | a window whose horizon starts at or beyond the cut's end sees only padding and is not observed |
| WindowProperties.ZeroHorizonUnobserved | neuralforecast/common/_base_windows.py:112-116 | an all-zero horizon mask means the window is not observed |
| WindowProperties.TrainWindowsObserved | neuralforecast/common/_base_windows.py:112-124 | every returned train window, sampled or not, has an observed horizon |
| WindowProperties.TrainWindowsOutcome | neuralforecast/common/_base_windows.py:97-130 | train fails exactly on an unfold failure or on sampling an empty filter result; without a batch size it is the filter result, with one it has exactly that many windows |
| WindowProperties.TrainWindowsShape | neuralforecast/common/_base_windows.py:109-124 | train windows are `[input_size + h, C]` |
| WindowProperties.SampleDraws | neuralforecast/common/_base_windows.py:119-124 | the result is the windows at the drawn positions; positions repeat only when there are fewer windows than the batch size |
| WindowProperties.EvalWindowsOk | neuralforecast/common/_base_windows.py:132-161 | val/predict succeeds iff (for predict) a `predict_step_size` is set, the stride is positive and the cut holds a window |
| WindowProperties.EvalWindowAt | neuralforecast/common/_base_windows.py:134-157 | val/predict window `k` of series `s` reads the series from `a + k*stride`, and zeros only in the predict padding |
| WindowProperties.PredictOneWindowPerSeries | neuralforecast/common/_base_windows.py:134-152 | with no test segment and no future channels, predict gives one window per series: the last `input_size` steps, then `h` zeros |
| WindowProperties.PredictBounds | neuralforecast/common/_base_windows.py:134-152 | with no test segment and no future channels, the predict slice is the last `input_size` steps, the padded length is `input_size + h`, and that gives one window |
| WindowProperties.PredictWithFutrAndNoTestFails | neuralforecast/common/_base_windows.py:134-152 | with a non-empty future list, `test_size == 0` and positive `h` and `input_size`, predict, and `_create_windows(batch, 'predict')` with it, always fail with `UnfoldFailed` |
| WindowProperties.ValBounds | neuralforecast/common/_base_windows.py:139-145 | the val slice is the `input_size + val_size` steps ending where the test segment begins |
| WindowProperties.ValWindowCount | neuralforecast/common/_base_windows.py:139-152 | val windows exist iff `h <= val_size`, and then number `(val_size - h) / step_size + 1` per series |
| WindowProperties.ValWindowAt | neuralforecast/common/_base_windows.py:139-157 | every value a val window reads is a real observation before the test segment |
| WindowProperties.CreatedWindowsShape | neuralforecast/common/_base_windows.py:91-163 | windows of every phase are `[input_size + h, C]` |
| WindowProperties.StaticListAlwaysFails | neuralforecast/common/_base_windows.py:127-129 | parsing the output of `_create_windows` with a non-empty static list always fails |
| NormalizationProperties.LookbackIgnoresHorizon | neuralforecast/common/_base_windows.py:172-185 | two windows that agree on target and mask over the lookback get the same statistics, whatever their horizons hold |
| NormalizationProperties.UnobservedLookback | neuralforecast/common/_base_windows.py:176-189 | an all-zero lookback mask gives mean 0 and std 1 |
| NormalizationProperties.MaskedMeanIs | neuralforecast/common/_base_windows.py:182-183 | the masked mean is `v` when the masked sum is `v` times a non-zero mask sum |
| NormalizationProperties.MeanOfConstant | neuralforecast/common/_base_windows.py:182-183 | a constant lookback `v` with a non-zero mask sum has masked mean `v` |
| NormalizationProperties.ConstantLookback | neuralforecast/common/_base_windows.py:182-189 | a constant lookback `v` with a non-zero mask sum gets mean `v` and, its std being 0, std 1 |
| NormalizationProperties.StandardizedByMeanIsCentred | neuralforecast/common/_base_windows.py:182-194 | standardising by the masked mean gives a masked sum of 0 |
| NormalizationProperties.StandardizedLookbackIsCentred | neuralforecast/common/_base_windows.py:182-194 | an observed lookback standardised by its own moments has masked mean 0 |
| NormalizationProperties.ObservedLookbackStd | neuralforecast/common/_base_windows.py:184-189 | for an observed lookback with a positive masked spread, the std is the square root of that spread (the masked sum of squared deviations over the mask sum), and neither clamp applies |
| NormalizationProperties.StandardizedSquares | neuralforecast/common/_base_windows.py:192-194 | standardising divides the masked sum of squared deviations by `std^2` |
| NormalizationProperties.StandardizedLookbackHasUnitVariance | neuralforecast/common/_base_windows.py:165-194 | such a lookback, standardised by its own moments, has a masked sum of squares equal to the mask sum: unit masked variance |
| NormalizationProperties.NormalizeYKeepsOtherChannels | neuralforecast/common/_base_windows.py:192-194 | normalising keeps the shape and every channel other than the target |
| NormalizationProperties.NormalizedLookback | neuralforecast/common/_base_windows.py:192-194 | a normalised window's lookback target is the standardised original, and its mask is unchanged |
| NormalizationProperties.NormalizationCentresLookback | neuralforecast/common/_base_windows.py:165-198 | after normalisation, every window with an observed lookback has masked lookback mean 0 |
| NormalizationProperties.InvNormalizationUndoesStandardize | neuralforecast/common/_base_windows.py:200-206 | de-normalising a standardised forecast gives it back exactly, point or multi-output |
| NormalizationProperties.StandardizeUndoesInvNormalization | neuralforecast/common/_base_windows.py:200-206 | standardising a de-normalised forecast gives back the model output |
| NormalizationProperties.InvNormalizationRecoversTarget | neuralforecast/common/_base_windows.py:192-206 | `_inv_normalization` maps the normalised target channel back to the original target values |
| ParseProperties.ParseSplitsTargetAndMask | neuralforecast/common/_base_windows.py:210-215 | `insample_y` holds `windowSize - h` steps and `outsample_y` holds `h`, and together they are the target column; the same holds for the mask |
| ParseProperties.ParseHistExog | neuralforecast/common/_base_windows.py:218-222 | `hist_exog` is `[n, windowSize - h, |hist|]` and holds the listed channels over the lookback |
| ParseProperties.ParseFutrExog | neuralforecast/common/_base_windows.py:225-229 | `futr_exog` is `[n, windowSize, |futr|]` and holds the listed channels over the whole window |
| ParseProperties.ParseStatExog | neuralforecast/common/_base_windows.py:231-235 | `stat_exog` is `static[:, 0, idx]`: one row of the listed channels per series |
| Mlp.FirstLayerWidth | neuralforecast/models/mlp.py:86-87 | definition: `input_size_first_layer`; `ForwardInputWidth` and `ParsedWindowsFitFirstLayer` prove it is the length of every assembled row |
| Mlp.AppendPart | neuralforecast/models/mlp.py:110-117 | definition of one conditional `torch.cat` step; `AppendTensor` and `AppendMatrix` state its result on well-shaped parts |
| Mlp.LayerCount | neuralforecast/models/mlp.py:90-92 | at least one layer; exactly `num_layers` when `num_layers >= 1` |
| Mlp.BuildLayers | neuralforecast/models/mlp.py:90-92 | the loop builds `LayerCount(num_layers)` layers: the first maps the input width to `hidden_size`, the rest map `hidden_size` to `hidden_size` |
| Mlp.LayersChain | neuralforecast/models/mlp.py:90-93 | each layer takes the width the previous one produces, and the last produces `hidden_size` |
| Mlp.MLP.constructor | neuralforecast/models/mlp.py:62-97 | the exogenous sizes are the list lengths; the hidden stack starts at `input_size_first_layer`; the adapter maps `hidden_size` to `h * outputsize_multiplier` |
| Mlp.Reshape | neuralforecast/models/mlp.py:110-117 | `reshape(b, -1)` succeeds iff `b > 0` divides the size, and then gives `b` equal rows that concatenate back to the input |
| Mlp.CatColumns | neuralforecast/models/mlp.py:111-117 | row `i` of the concatenation is `a[i] ++ b[i]` |
| Mlp.ForwardInput | neuralforecast/models/mlp.py:109-117 | the batch size is preserved; each row starts with the window's `insample_y`; with no exogenous inputs the input is `insample_y` itself |
| Mlp.MLP.AssembleInput | neuralforecast/models/mlp.py:109-117 | the step-by-step rebinding of `insample_y` computes exactly `ForwardInput` with the model's sizes |
| MlpProperties.ReshapeOfFlatten | neuralforecast/models/mlp.py:111-114 | `reshape(B, -1)` of a `[B, T, C]` tensor gives window `i` flattened as row `i`, of length `T * C` |
| MlpProperties.WindowRowAt | neuralforecast/models/mlp.py:111-114 | in a flattened window, step `t`, channel `k` sits at offset `t * C + k` |
| MlpProperties.ForwardInputBlocks | neuralforecast/models/mlp.py:107-117 | on well-shaped inputs, row `i` is `y[i] ++ hist[i] ++ futr[i] ++ stat[i]`, each used part flattened row-major |
| MlpProperties.BlockWidths | neuralforecast/models/mlp.py:86-87 | the blocks of a row are `L`, `Ch * L`, `Cf * (L + h)` and `Cs` wide |
| MlpProperties.ForwardInputWidth | neuralforecast/models/mlp.py:86-117 | every assembled row has exactly `input_size_first_layer` entries, one per window |
| MlpProperties.RowWidth | neuralforecast/models/mlp.py:86-117 | an assembled row `y ++ hist ++ futr ++ stat` has `input_size_first_layer` entries |
| MlpProperties.TargetBlockAt | neuralforecast/models/mlp.py:109-111 | the assembled row starts with `insample_y`: target lag `t` is at offset `t` |
| MlpProperties.HistBlockAt | neuralforecast/models/mlp.py:110-111 | historic channel `k` at lag `t` is at offset `L + t*Ch + k` |
| MlpProperties.FutrBlockAt | neuralforecast/models/mlp.py:113-114 | future channel `k` at step `t` is at offset `L + Ch*L + t*Cf + k` |
| MlpProperties.StatBlockAt | neuralforecast/models/mlp.py:116-117 | static channel `k` is at offset `L + Ch*L + Cf*(L+h) + k` |
| MlpProperties.ForwardInputOffsets | neuralforecast/models/mlp.py:109-117 | with all parts used, row `i` is `y[i] ++ flat(hist[i]) ++ flat(futr[i]) ++ stat[i]` |
| MlpProperties.ParsedWindowsFitFirstLayer | neuralforecast/models/mlp.py:86-117 | the parts `_parse_windows` returns assemble into one row per window, of exactly the first layer's `in_features` |
| Tensors.PyNeg | neuralforecast/common/_base_windows.py:98-100 | Python's `n - k` slice end for `[:-k]`, clamped at 0: never past `n`, and at most `k` short of it |
| Tensors.PadTime | neuralforecast/common/_base_windows.py:102 | `ConstantPad1d((0, h), 0)`: every channel keeps its steps and gains `amount` zeros at the end |
| Tensors.SliceTime | neuralforecast/common/_base_windows.py:100-145 | `x[:, :, a:b]`: every series and channel, with `b - a` steps. Its values are stated by `EvalCut` and `TrainCut` |
| Tensors.NumWindows | neuralforecast/common/_base_windows.py:103-105 | `unfold` cuts at least one window when the axis is long enough. The count is stated per phase by `TrainWindowCount` and `ValWindowCount` |
| Tensors.Unfold | neuralforecast/common/_base_windows.py:103-105 | `unfold(-1, size, step)` of a `[S, C, len]` tensor is `[S, C, NumWindows, size]` |
| Tensors.Permute0231 | neuralforecast/common/_base_windows.py:109 | `permute(0, 2, 3, 1)` turns `[S, C, N, W]` into `[S, N, W, C]` |
| Tensors.Extract | neuralforecast/common/_base_windows.py:103-110 | definition: unfold, permute and merge the series and window axes; its layout is stated by `ExtractAt` |
| Tensors.ExtractAt | neuralforecast/common/_base_windows.py:103-110 | after unfold, permute and reshape, window `s * n + k` at step `t`, channel `c` is series `s`, channel `c`, step `k * step + t` |
| Tensors.ConcatAt | neuralforecast/models/mlp.py:111-114 | in a row-major concatenation of rows of width `n`, entry `i * n + j` is row `i`, column `j` |
| Tensors.RowsOfConcat | neuralforecast/models/mlp.py:111-117 | splitting the concatenation of equal rows gives the rows back |
| Tensors.ConcatOfRows | neuralforecast/models/mlp.py:111-117 | concatenating the rows a flat sequence splits into gives it back |

## Left out

- MlpProperties.ParsedWindowsFitFirstLayer: requires the static part to have one row per window. The source's statics have one row per series, which is a different count when a series yields several windows. The path is not reachable in the source, because of the `KeyError` at `_base_windows.py:232`.
- Training orchestration: the Lightning training, validation and prediction steps, the trainer, the data module, optimiser, loss, logging and `decompose`.
- Tensor movement and encoders: device and dtype handling, and `_encoders.py`. The model works on mathematical values.
- Random generator: `np.random.choice` and its seed are the parameter `choice` (see above).
- Floating point: reals replace IEEE floats, and `torch.sqrt` is a parameter. Rounding, NaN, and the NaN a negative mask value would produce in the std are not modelled.
- Column lookup: `temporal_cols.get_loc` / `get_indexer` are replaced by channel indices given as arguments.
- Predict's other arguments: `predict` ignores its `test_size` argument, and its `**data_kwargs` go to `TimeSeriesDataModule` (line 355). Neither affects the windows, so only `predict_step_size` is modelled.
- Windows.BaseWindows.constructor: the source never assigns `self.input_size`; `MLP` sends `input_size` into `**trainer_kwargs`. So line 93 of `_create_windows` (and lines 136 and 141) would raise `AttributeError`. The model departs from the source here: it takes `inputSize` as a constructor argument and stores it, so that the window geometry can be stated at all.
- Network and output: the weights of `nn.Linear`, the layer application with `relu` (mlp.py:119-124), `self.out` applied to the hidden state and `loss.adapt_output`. A `Linear` is its two widths only.
- Mlp.MLP.constructor: `MLP` holds a `BaseWindows` by composition rather than inheriting from it. The loss is reduced to its `outputsize_multiplier`.
- torch `reshape` and `cat` checks: `cat` requires equal row counts. The model returns None when the part is missing, when `reshape(B, -1)` does not divide evenly, or when `B == 0`. Other torch errors, such as a wrong dtype, are not modelled.
