# sktime deep-learning adapters: a verified model of their index arithmetic

This project models the parts of sktime that adapt panel time series to
fixed-length windows for PyTorch networks, and that map the networks' outputs
back to labelled rows:

- **`BaseDeepNetworkPyTorch`**, the PyTorch forecasting adapter. It covers:
  - the three window datasets (`PyTorchDataset`, `PyTorchTrainDataset`, `PyTorchPredDataset`);
  - `_prepare_data`, `_same_index`, `_frame2numpy` and `_to_multiindex`;
  - the train/test split of `build_dataloader`;
  - the optimizer and criterion registries;
  - the epoch loop, as a trace of calls;
  - the prediction loop;
  - the reconstruction of the forecast frame. Instance ids are repeated, horizon times are tiled, and the rows are then filtered to the requested horizon.
- **`TimesFMForecaster`**. It covers:
  - the effective horizon fixed by `_fit`;
  - the horizon check in `_predict`;
  - the history matrix;
  - the context cut and left zero-padding with its 0/1 padding mask;
  - the frequency column;
  - the same reconstruction of the forecast frame.
- **`BaseDeepClassifierPytorch`** and `BaseDatasetPytorch`. It covers:
  - the axis swap of the input array;
  - the all-true padding mask;
  - items with and without labels;
  - the registries;
  - the per-batch training loop with its loss list.
- **`Dataset_Custom`** of the LTSF networks. It covers:
  - the `size` and `flag` arguments;
  - the train/val/test borders;
  - the encoder window, the label window, the decoder input (label part followed by zeros) and the target;
  - the unclamped length.

Modules, one per file:

| file | module | contents |
|---|---|---|
| `common.dfy` | `Common` | `Option`, `Result` and the errors the code raises, by cause |
| `py_slice.dfy` | `PySlice` | Python slicing: negative bounds, clamping, `s[-0:]` |
| `seqs.dfy` | `Seqs` | concatenation, cutting into batches (a data loader without shuffling), boolean-mask selection |
| `unique.dfy` | `Unique` | `np.unique` on integer ids |
| `arith.dfy` | `Arith` | quotient and remainder facts for row-major indices |
| `panel.dfy` | `Panel` | data frames with a flat or (instance, time) index, and the dense cube built from them |
| `reconstruction.dfy` | `Reconstruction` | labelling the stacked outputs and the horizon filter, shared by both forecasters |
| `registry.dfy` | `Registry` | optimizer and criterion selection by name |
| `training.dfy` | `Training` | the training calls as a trace of events |
| `forecasting_datasets.dfy` | `ForecastingDatasets` | the three forecasting window datasets and the test split |
| `forecasting_adapter.dfy` | `ForecastingAdapter` | `BaseDeepNetworkPyTorch` |
| `timesfm.dfy` | `TimesFM` | `TimesFMForecaster` |
| `classifier.dfy` | `Classifier` | `BaseDeepClassifierPytorch` and its dataset |
| `ltsf_dataset.dfy` | `LtsfDataset` | `Dataset_Custom` |

Conventions:

- Values are `real`; nothing in the model computes with them.
- Time is an integer index with step one, so relative step `s` after `cutoff` is time `cutoff + s`.
- An instance id is one integer.
- A network is a function from one history window to its rows of output. The TimesFM decoder is a function from its three inputs and the horizon to its forecast rows; their number is not constrained.
- An estimator's registry is given as its set of keys.
- The states that the source changes step by step are classes, with methods proved against specification functions:
  - the fitted network and the training trace of the forecaster;
  - the fitted horizon of TimesFM;
  - the padding array that `_predict_pytorch` fills in place;
  - the loss list of the classifier;
  - the fields `__read_data__` assigns.
- `_same_index` and `_frame2numpy` exist as identical copies in `timesfm_forecaster.py:388-403`. Both forecasters use the one model in `Panel`.
- The registry code of the classifier (`classification/deep_learning/_pytorch.py:88-120`) is identical to the forecaster's except for the default criterion. Each estimator's `CriterionChoice` passes its own default.

Where the repository's description and its code differ, the model follows the code:

- `PyTorchTrainDataset` appends the exogenous rows to the history along the time axis, not the variable axis.
- `PyTorchPredDataset` with exogenous data reads `self.fh`, which it never sets.
- In `Dataset_Custom`, the example comment at `networks/ltsf/data/dataset.py:37-40` puts the label window after the encoder window. The code starts it `label_len` rows before the encoder window ends.

## Model

| member | source | states |
|---|---|---|
| `ForecastingDatasets.SeriesWindows` | sktime/forecasting/base/adapters/_pytorch.py:311-316 | the reference list of windows of one series has `len - seq_len - pred_len + 1` entries, or none when the series is too short |
| `ForecastingDatasets.SeriesWindowAt` | sktime/forecasting/base/adapters/_pytorch.py:325-326 | window `m` of the reference list is history `s[m, m+seq_len)` and future `s[m+seq_len, m+seq_len+pred_len)`, both in bounds |
| `ForecastingDatasets.WindowDataset.constructor` | sktime/forecasting/base/adapters/_pytorch.py:301-311 | the dataset keeps the cube, its instance count and length, `seq_len`, `pred_len`, and `_len_single = len - seq_len - pred_len + 1` |
| `ForecastingDatasets.WindowDataset.Length` | sktime/forecasting/base/adapters/_pytorch.py:313-316 | the length is zero exactly when there are no instances or the series are shorter than `seq_len + pred_len`, and is not an error |
| `ForecastingDatasets.WindowDataset.LengthIsWindowCount` | sktime/forecasting/base/adapters/_pytorch.py:313-316 | the length equals the number of reference windows of all instances together |
| `ForecastingDatasets.WindowDataset.GetItem` | sktime/forecasting/base/adapters/_pytorch.py:318-331 | every item in range has a history of exactly `seq_len` rows and a future of exactly `pred_len` rows |
| `ForecastingDatasets.WindowDataset.GetItemRows` | sktime/forecasting/base/adapters/_pytorch.py:318-326 | item `i` reads steps `[m, m + seq_len)` and then `[m + seq_len, m + seq_len + pred_len)` of series `i // len_single`, with `m = i % len_single` |
| `ForecastingDatasets.WindowDataset.GetItemWindow` | sktime/forecasting/base/adapters/_pytorch.py:318-331 | item `i` is reference window `i`: the windows of instance 0 by offset, then those of instance 1, and so on |
| `ForecastingDatasets.WindowDataset.IndexSplit` | sktime/forecasting/base/adapters/_pytorch.py:322-323 | an item index in range splits into an instance below `_num` and an offset below `_len_single` that recompose to it |
| `ForecastingDatasets.WindowDataset.IndexJoin` | sktime/forecasting/base/adapters/_pytorch.py:322-323 | every (instance, offset) pair is the split of exactly the item `n * _len_single + m`, which is in range |
| `ForecastingDatasets.WindowDataset.IndexInjective` | sktime/forecasting/base/adapters/_pytorch.py:322-323 | distinct items read distinct (instance, offset) pairs |
| `ForecastingDatasets.TestCube` | sktime/forecasting/base/adapters/_pytorch.py:206-208 | the test split keeps the last `seq_len` steps of every instance, and all of them when `seq_len` is 0 or at least the length |
| `ForecastingDatasets.TestSeriesWindow` | sktime/forecasting/base/adapters/_pytorch.py:206-209 | with `pred_len` 0, a series of at least `seq_len > 0` steps cut to its last `seq_len` steps has exactly one window: those steps |
| `ForecastingDatasets.TestSeriesAt` | sktime/forecasting/base/adapters/_pytorch.py:206-209 | series `n` of the test split has exactly one window, the last `seq_len` steps of series `n` |
| `ForecastingDatasets.TestWindows` | sktime/forecasting/base/adapters/_pytorch.py:206-231 | the test dataset has one window per instance, in instance order, holding the instance's last `seq_len` steps |
| `ForecastingDatasets.ShortSeriesNoWindow` | sktime/forecasting/base/adapters/_pytorch.py:206-209 | a series shorter than `seq_len` gives no test window |
| `ForecastingDatasets.TrainDataset.constructor` | sktime/forecasting/base/adapters/_pytorch.py:337-341 | the dataset keeps the values, the exogenous values, `seq_len` and `fh`, with every row as wide as its frame |
| `ForecastingDatasets.TrainDataset.Length` | sktime/forecasting/base/adapters/_pytorch.py:343-345 | the length is the number of reference windows with `fh` future steps, which is `max(len - seq_len - fh + 1, 0)` |
| `ForecastingDatasets.TrainDataset.GetItem` | sktime/forecasting/base/adapters/_pytorch.py:347-361 | the target is reference window `i`'s future. The input is its history alone without X, or the history followed by the X rows `[i+seq_len, i+seq_len+fh)`. `torch.cat` refuses X rows of another width than `y`'s rows, and an input it accepts has rows of `y`'s width only |
| `ForecastingDatasets.PredDataset.constructor` | sktime/forecasting/base/adapters/_pytorch.py:367-370 | the dataset keeps the values, the exogenous values and `seq_len` |
| `ForecastingDatasets.PredDataset.Length` | sktime/forecasting/base/adapters/_pytorch.py:372-374 | the length is always 1 |
| `ForecastingDatasets.PredDataset.GetItem` | sktime/forecasting/base/adapters/_pytorch.py:376-390 | the item is the first `seq_len` rows with an always-empty target. With X it fails on the unset `fh` attribute |
| `Panel.SameIndex` | sktime/forecasting/base/adapters/_pytorch.py:393-400 | success means that every instance's time index equals the returned non-empty index. Failure means an empty frame (an empty-sequence error) or two instances with different indices ("All series must has the same index") |
| `Panel.Frame2Numpy` | sktime/forecasting/base/adapters/_pytorch.py:403-408 | after the same-index check, the reshape succeeds exactly when the rows divide into whole instances and there are columns. It gives a cube of shape (k, length, columns) whose instances concatenate back to the rows |
| `Panel.Reshape` | sktime/forecasting/base/adapters/_pytorch.py:405-407 | a row-major reshape into pieces of `length` rows is a valid cube whose pieces concatenate back to the rows |
| `Panel.PrepareData` | sktime/forecasting/base/adapters/_pytorch.py:188-198 | one series becomes a cube of shape (1, T, columns) holding its rows unchanged; a panel goes through `_frame2numpy` |
| `Panel.ProductIndex` | sktime/forecasting/base/adapters/_pytorch.py:411-419 | a product index has `|ids| * |times|` labels, all (instance, time) pairs |
| `Panel.ProductSameIndex` | sktime/forecasting/base/adapters/_pytorch.py:393-400 | a panel over the product of sorted distinct ids and one time index passes the same-index check with that index, and `np.unique` gives back the ids |
| `Panel.FromProductLayout` | sktime/forecasting/base/adapters/_pytorch.py:403-408 | on such a panel, cube entry `j` holds exactly the rows labelled `ids[j]`, in row order |
| `Panel.ToMultiindex` | sktime/forecasting/base/adapters/_pytorch.py:411-419 | one series becomes a one-instance panel with the same columns, values and times, the instance level named in front of the time level |
| `Panel.ToMultiindexPrepare` | sktime/forecasting/base/adapters/_pytorch.py:411-419 | wrapping a series as a one-instance panel does not change the cube the network reads |
| `Unique.SortedUnique` | sktime/forecasting/base/adapters/_pytorch.py:150-152 | `np.unique` gives strictly increasing ids, exactly those that occur |
| `Unique.SortedUniqueOfSorted` | sktime/forecasting/base/adapters/_pytorch.py:150-152 | on ids already strictly increasing, `np.unique` is the identity |
| `Unique.SortedDetermined` | sktime/forecasting/base/adapters/_pytorch.py:150-152 | two strictly increasing id lists with the same members are equal, so `np.unique` has one possible result |
| `Registry.Criterion` | sktime/forecasting/base/adapters/_pytorch.py:117-130 | a falsy name gives the default with no keywords. A registry key gives that entry, with the keyword dictionary only when it is non-empty. Any other name raises TypeError listing the keys |
| `Registry.Optimizer` | sktime/forecasting/base/adapters/_pytorch.py:98-115 | the same three-way rule, with every constructor also given `lr`. A keyword dictionary that itself holds `lr` fails with a duplicate keyword |
| `Registry.SameRule` | sktime/forecasting/base/adapters/_pytorch.py:98-130 | optimizer and criterion accept and refuse the same names, and choose a registry entry for the same names |
| `Training.BatchEvents` | sktime/forecasting/base/adapters/_pytorch.py:91-96 | one batch makes five calls, all for that epoch and batch |
| `Training.EpochEvents` | sktime/forecasting/base/adapters/_pytorch.py:90-96 | an epoch of `nb` batches makes `5 * nb` calls |
| `Training.FitEvents` | sktime/forecasting/base/adapters/_pytorch.py:87-88 | `ne` epochs of `nb` batches make `ne * 5 * nb` calls |
| `Training.EpochEventAt` | sktime/forecasting/base/adapters/_pytorch.py:90-96 | call `k` of batch `b` sits at position `5 * b + k` of the epoch |
| `Training.FitEventAt` | sktime/forecasting/base/adapters/_pytorch.py:87-96 | every epoch and batch gets its five calls in the order forward, loss, zero_grad, backward, step, with epochs and batches in increasing order |
| `Training.EpochStepFollowsBackward` | sktime/forecasting/base/adapters/_pytorch.py:94-96 | within an epoch, every optimizer step comes right after the backward pass of its own batch |
| `Training.StepFollowsBackward` | sktime/forecasting/base/adapters/_pytorch.py:94-96 | over the whole fit, every optimizer step comes right after the backward pass of the same epoch and batch |
| `Reconstruction.Repeat` | sktime/forecasting/base/adapters/_pytorch.py:150-152 | `np.repeat` of the ids by `h` has `|ids| * h` entries |
| `Reconstruction.Tile` | sktime/forecasting/base/adapters/_pytorch.py:155-160 | the horizon list repeated `k` times has `|xs| * k` entries |
| `Reconstruction.Horizon` | sktime/forecasting/base/adapters/_pytorch.py:156-158 | the absolute horizon of steps `1..h` is strictly increasing and holds exactly the times in `(cutoff, cutoff + h]` |
| `Reconstruction.FromArrays` | sktime/forecasting/base/adapters/_pytorch.py:161-164 | the MultiIndex is built exactly when both arrays have the same length, and has that length |
| `Reconstruction.RepeatTileProduct` | sktime/forecasting/base/adapters/_pytorch.py:149-164 | repeated ids against tiled times form the instance-major product index: every id with every horizon time |
| `Reconstruction.LabelPredictions` | sktime/forecasting/base/adapters/_pytorch.py:149-177 | the unfiltered forecast keeps the index names and columns and holds the stacked outputs. A panel is labelled by the product of the `np.unique` ids with the horizon and has one output per id; one series is labelled by the horizon. It fails on no outputs, ragged outputs or a wrong width |
| `Reconstruction.LabelAt` | sktime/forecasting/base/adapters/_pytorch.py:149-177 | row `p` of the unfiltered panel forecast is labelled (unique id `p / h`, `cutoff + p % h + 1`); row `p` of one series is labelled `cutoff + p + 1` |
| `Reconstruction.HorizonMask` | sktime/forecasting/base/adapters/_pytorch.py:179-182 | the filter mask has one entry per row |
| `Reconstruction.FilterHorizon` | sktime/forecasting/base/adapters/_pytorch.py:179-184 | the filtered frame is well formed and keeps the index names, the columns and the index kind |
| `Reconstruction.FilterLabels` | sktime/forecasting/base/adapters/_pytorch.py:179-183 | the filter keeps exactly the labels whose time is in the absolute horizon |
| `Reconstruction.FilterPairs` | sktime/forecasting/base/adapters/_pytorch.py:179-183 | every kept label keeps its own row of values |
| `Reconstruction.FilteredRows` | sktime/forecasting/base/adapters/_pytorch.py:179-183 | filtering preserves the correspondence between each label and the output row it names |
| `Reconstruction.LabelledRows` | sktime/forecasting/base/adapters/_pytorch.py:149-177 | in the unfiltered panel forecast, the row labelled (ids[j], cutoff + s) holds row `s - 1` of output `j` |
| `Reconstruction.LabelledRowAt` | sktime/forecasting/base/adapters/_pytorch.py:149-177 | the same fact for one row |
| `Reconstruction.PanelForecastLabels` | sktime/forecasting/base/adapters/_pytorch.py:149-183 | a panel forecast is labelled exactly by the pairs (an instance of the frame, `cutoff + s`) with `s` requested and `1 <= s <= h` |
| `Reconstruction.PanelForecastValues` | sktime/forecasting/base/adapters/_pytorch.py:149-183 | a panel forecast has one output per instance. The row labelled (ids[j], cutoff + s) holds row `s - 1` of output `j`. Outputs of length 0 give an empty forecast |
| `Reconstruction.Forecast` | sktime/forecasting/base/adapters/_pytorch.py:149-186 | labelling and filtering fail exactly when labelling fails, with its error, and keep the index names and columns |
| `ForecastingAdapter.TestOutputs` | sktime/forecasting/base/adapters/_pytorch.py:139-145 | the network gives one output per test window |
| `ForecastingAdapter.TestOutputsLast` | sktime/forecasting/base/adapters/_pytorch.py:206-209 | when every series has at least `seq_len > 0` steps, there is one output per instance: the network applied to the instance's last `seq_len` rows |
| `ForecastingAdapter.TrainBatches` | sktime/forecasting/base/adapters/_pytorch.py:200-233 | the training loader passes on the data preparation error. The shuffling loader then refuses a dataset without windows, and after that a batch size below one. Otherwise it has at least one batch, as many as its dataset's windows fill |
| `ForecastingAdapter.ShortTrainSplit` | sktime/forecasting/base/adapters/_pytorch.py:200-233 | when every series is shorter than `seq_len + pred_len`, building the training loader fails with the empty-dataset error |
| `ForecastingAdapter.ShortTestSplit` | sktime/forecasting/base/adapters/_pytorch.py:200-233 | when every series is shorter than `seq_len`, the test split has no windows and prediction fails building its loader |
| `ForecastingDatasets.ShortCubeNoWindows` | sktime/forecasting/base/adapters/_pytorch.py:313-316 | a cube whose series are shorter than one window has no windows at all |
| `ForecastingAdapter.PredictPanelOutputs` | sktime/forecasting/base/adapters/_pytorch.py:132-186 | on a product panel with sorted distinct ids, the network runs once per instance, on that instance's last `seq_len` rows, in id order |
| `ForecastingAdapter.PredictPanelLabels` | sktime/forecasting/base/adapters/_pytorch.py:149-183 | a successful panel forecast is labelled exactly by (id, `cutoff + s`) with `id` an instance, `s` requested and `s` at most the output length |
| `ForecastingAdapter.PredictPanelRows` | sktime/forecasting/base/adapters/_pytorch.py:132-186 | in a successful panel forecast, the row labelled (ids[j], cutoff + s) holds row `s - 1` of the network's output for the last `seq_len` rows of `ids[j]` |
| `ForecastingAdapter.PredictSeries` | sktime/forecasting/base/adapters/_pytorch.py:165-183 | a successful forecast of one series is labelled exactly by the requested steps up to the output length, and the row at `cutoff + s` is row `s - 1` of the one network output |
| `Reconstruction.SeriesForecastRows` | sktime/forecasting/base/adapters/_pytorch.py:165-183 | labelling the outputs of one series and filtering them to the horizon labels the forecast exactly by the requested steps `s` with `1 <= s <= h`, and the row at `cutoff + s` is row `s - 1` of the one output |
| `ForecastingAdapter.ShuffledTestOutputs` | sktime/forecasting/base/adapters/_pytorch.py:233 | the shuffled test loader delivers output `order[i]` in position `i` |
| `ForecastingAdapter.ShuffledPanelForecast` | sktime/forecasting/base/adapters/_pytorch.py:139-143 | with the shuffling test loader, the forecast of a product panel is built from the instances' outputs stacked in the order the loader visits them |
| `ForecastingAdapter.ShuffledPanelRows` | sktime/forecasting/base/adapters/_pytorch.py:139-164 | with the shuffled test loader, the row labelled (ids[j], cutoff + s) holds the output computed for instance `ids[order[j]]` |
| `ForecastingAdapter.Forecaster.constructor` | sktime/forecasting/base/adapters/_pytorch.py:40-60 | the hyper-parameters are stored; nothing is fitted and no call has been made |
| `ForecastingAdapter.Forecaster.RunEpoch` | sktime/forecasting/base/adapters/_pytorch.py:90-96 | one epoch appends the five calls of each batch, batch after batch, and changes nothing else |
| `ForecastingAdapter.Forecaster.Train` | sktime/forecasting/base/adapters/_pytorch.py:87-88 | training appends `num_epochs` epochs of calls |
| `ForecastingAdapter.Forecaster.BuildDataloader` | sktime/forecasting/base/adapters/_pytorch.py:200-233 | building the training loader gives the number of batches, or the error, that the training loader specification states |
| `ForecastingAdapter.Forecaster.CriterionChoice` | sktime/forecasting/base/adapters/_pytorch.py:117-130 | the criterion fails exactly on a truthy name outside the registry. A falsy name gives MSELoss with no keywords, and a registry name gives that entry with the keyword dictionary only when it is non-empty |
| `ForecastingAdapter.Forecaster.OptimizerChoice` | sktime/forecasting/base/adapters/_pytorch.py:98-115 | a falsy name gives Adam with `lr` only. A truthy name fails exactly when it is outside the registry or its keywords already hold `lr`. Every optimizer built gets the forecaster's `lr` |
| `ForecastingAdapter.Forecaster.Fit` | sktime/forecasting/base/adapters/_pytorch.py:66-88 | fitting builds a network up to the last horizon step, then the criterion, then the optimizer, then the loader. The first failure is returned. The trace is then unchanged, as are the criterion and optimizer that were not reached. Otherwise `num_epochs` epochs over the loader's batches are appended to the trace |
| `ForecastingAdapter.Forecaster.PredictBatch` | sktime/forecasting/base/adapters/_pytorch.py:143-144 | the outputs of one batch are the network's outputs on the reference windows at the batch's item indices |
| `ForecastingAdapter.Forecaster.PredictBatches` | sktime/forecasting/base/adapters/_pytorch.py:139-145 | the batch outputs concatenate to the network's output for every window in order, and there are none exactly when the dataset is empty |
| `ForecastingAdapter.Forecaster.Predict` | sktime/forecasting/base/adapters/_pytorch.py:132-186 | before fitting, predicting fails. After fitting, it returns exactly the prediction specification: the empty-dataset error for a test split without windows, or the labelled, filtered forecast of the test windows |
| `TimesFM.Max` | sktime/forecasting/timesfm_forecaster.py:292 | the maximum of a non-empty list is one of its entries and at least every entry |
| `TimesFM.EffectiveHorizon` | sktime/forecasting/timesfm_forecaster.py:224-229 | without `fh` the horizon is `horizon_len`. With `fh` it is the least value at least `horizon_len` and every step, and one of them. An empty `fh` fails like `max` of one integer |
| `TimesFM.ContextRow` | sktime/forecasting/timesfm_forecaster.py:243-254 | every decoder input row has `context_len` entries: the last `context_len` values of a long series, or `context_len - T` zeros followed by the whole series. `context_len` 0 keeps the series |
| `TimesFM.PadRow` | sktime/forecasting/timesfm_forecaster.py:246-255 | the mask row has `context_len + horizon` entries, 1 exactly at the positions below `context_len - T` and 0 elsewhere |
| `TimesFM.MaskMarksPadding` | sktime/forecasting/timesfm_forecaster.py:245-255 | where the mask is 1 the input is a padding zero, and where it is 0 within the context the input is the series |
| `TimesFM.LongSeriesNoPadding` | sktime/forecasting/timesfm_forecaster.py:246-255 | a series at least `context_len` long has an all-zero mask row |
| `TimesFM.FreqColumn` | sktime/forecasting/timesfm_forecaster.py:247 | the frequency input has one row per series, each equal to `freq` |
| `TimesFM.Squeeze` | sktime/forecasting/timesfm_forecaster.py:303 | squeezing single-value rows keeps the series' length and its values |
| `TimesFM.HistoryMatrix` | sktime/forecasting/timesfm_forecaster.py:301-307 | one series gives its transposed values, one row per column. A panel gives its cube with the single variable squeezed out, one row per instance, and fails with several variables |
| `TimesFM.ForecastRows` | sktime/forecasting/timesfm_forecaster.py:339-341 | every decoder row becomes one output of single-value rows of the same length |
| `TimesFM.PredictResult` | sktime/forecasting/timesfm_forecaster.py:287-352 | the horizon check comes first: prediction fails with the over-horizon error exactly when the largest requested step exceeds the fitted horizon |
| `TimesFM.FittedHorizonSuffices` | sktime/forecasting/timesfm_forecaster.py:290-297 | predicting on the horizon used for fitting never fails the horizon check |
| `TimesFM.PanelHistory` | sktime/forecasting/timesfm_forecaster.py:301-303 | on a one-variable product panel, history row `j` is the values of instance `ids[j]` in time order |
| `TimesFM.PanelDecoderInput` | sktime/forecasting/timesfm_forecaster.py:243-254 | on such a panel, decoder input row `j` is the context of instance `ids[j]` |
| `TimesFM.PredictPanel` | sktime/forecasting/timesfm_forecaster.py:318-352 | a successful panel forecast is labelled exactly by (id, `cutoff + s`) with `s` requested and at most the decoder's output length. The row labelled (ids[j], cutoff + s) holds entry `s - 1` of decoder row `j` |
| `TimesFM.SeriesHistory` | sktime/forecasting/timesfm_forecaster.py:304-307 | the history of one single-variable series is that series as one row |
| `TimesFM.PredictSeries` | sktime/forecasting/timesfm_forecaster.py:331-352 | a successful forecast of one series is labelled exactly by the requested steps up to the output length, and the row at `cutoff + s` holds entry `s - 1` of the one decoder row |
| `TimesFM.TimesFMForecaster.constructor` | sktime/forecasting/timesfm_forecaster.py:164-167 | the context length, horizon length and frequency are stored, and no horizon is fitted |
| `TimesFM.TimesFMForecaster.Fit` | sktime/forecasting/timesfm_forecaster.py:224-229 | fitting records the effective horizon, or fails and leaves the fitted horizon unchanged |
| `TimesFM.TimesFMForecaster.BuildPads` | sktime/forecasting/timesfm_forecaster.py:246-255 | the padding array filled in place has one mask row per series |
| `TimesFM.TimesFMForecaster.PredictPytorch` | sktime/forecasting/timesfm_forecaster.py:240-285 | the decoder is called on the context rows, the mask rows, the frequency column and the fitted horizon |
| `TimesFM.TimesFMForecaster.Predict` | sktime/forecasting/timesfm_forecaster.py:287-352 | before fitting, predicting fails. After fitting, it returns exactly the specified forecast |
| `Classifier.Transpose` | sktime/classification/deep_learning/_pytorch.py:228-233 | swapping the last two axes gives an array whose entry (i, t, d) is entry (i, d, t) of the input |
| `Classifier.TransposeTwice` | sktime/classification/deep_learning/_pytorch.py:230 | swapping the axes twice gives back the array |
| `Classifier.Dataset.constructor` | sktime/classification/deep_learning/_pytorch.py:228-234 | the dataset stores the swapped array and the labels |
| `Classifier.Dataset.Length` | sktime/classification/deep_learning/_pytorch.py:236-237 | the length is the number of instances |
| `Classifier.Dataset.GetItem` | sktime/classification/deep_learning/_pytorch.py:239-256 | an item is the instance's (time, variable) matrix with an all-true mask of one entry per time step. It carries a label exactly when there are labels, and that label is `y[i]`. A short label list fails on indexing |
| `Classifier.Dataset.GetItemInstance` | sktime/classification/deep_learning/_pytorch.py:239-241 | entry (t, d) of item `i` is entry (d, t) of instance `i` of the original array |
| `Classifier.Loader` | sktime/classification/deep_learning/_pytorch.py:126-134 | the loader without shuffling visits every instance once in order, in `ceil(n / batch_size)` non-empty batches of at most `batch_size`, and refuses a batch size below one |
| `Classifier.DeepClassifier.constructor` | sktime/classification/deep_learning/_pytorch.py:42-62 | the hyper-parameters are stored, and no call has been made |
| `Classifier.DeepClassifier.RunEpoch` | sktime/classification/deep_learning/_pytorch.py:76-86 | one epoch appends the five calls of each batch and records exactly one loss per batch, in batch order |
| `Classifier.DeepClassifier.Train` | sktime/classification/deep_learning/_pytorch.py:72-74 | training appends `num_epochs` epochs of calls |
| `Classifier.DeepClassifier.CriterionChoice` | sktime/classification/deep_learning/_pytorch.py:107-120 | the criterion fails exactly on a truthy name outside the registry. A falsy name gives CrossEntropyLoss with no keywords, and a registry name gives that entry with the keyword dictionary only when it is non-empty |
| `Classifier.DeepClassifier.OptimizerChoice` | sktime/classification/deep_learning/_pytorch.py:88-105 | a falsy name gives Adam with `lr` only. A truthy name fails exactly when it is outside the registry or its keywords already hold `lr`. Every optimizer built gets the classifier's `lr` |
| `Classifier.FailingBatch` | sktime/classification/deep_learning/_pytorch.py:250-256 | with labels for only the first `m < n` instances, every batch before batch `m // batch_size` holds labelled instances only, and batch `m // batch_size` holds instance `m`, whose `y[i]` fails |
| `Classifier.DeepClassifier.Fit` | sktime/classification/deep_learning/_pytorch.py:64-74 | fitting instantiates the criterion (default CrossEntropyLoss), then the optimizer, then the loader, and returns the first failure, leaving the trace unchanged along with the criterion and optimizer that were not reached. With fewer labels `m` than instances and at least one epoch, the first epoch runs the `m // batch_size` batches of labelled instances and then fails on indexing. Otherwise it appends `num_epochs` epochs of `ceil(n / batch_size)` batches |
| `LtsfDataset.ReadSizes` | sktime/networks/ltsf/data/dataset.py:29-36 | no `size` gives (384, 96, 96); otherwise the first three entries, and a shorter list fails on indexing |
| `LtsfDataset.SetType` | sktime/networks/ltsf/data/dataset.py:42-44 | the flag is accepted exactly when it is train, val or test, and its set type is its position in that list |
| `LtsfDataset.Borders` | sktime/networks/ltsf/data/dataset.py:86-98 | train reads `[0, num_train)`. Val starts `seq_len` rows before `num_train` and ends where the test rows start. Test ends at `N` and starts `seq_len + pred_len` rows before it |
| `LtsfDataset.ZerosLike` | sktime/networks/ltsf/data/dataset.py:146 | the zero block has the shape of its argument and only zeros |
| `LtsfDataset.DatasetCustom.constructor` | sktime/networks/ltsf/data/dataset.py:131-133 | `data_x` and `data_y` are the same rows `data[border1:border2]`, and the time marks are the same rows of the stamps |
| `LtsfDataset.DatasetCustom.Length` | sktime/networks/ltsf/data/dataset.py:159-160 | the length counts the windows of `seq_len + pred_len` rows and is negative, not clamped, when the split is more than one row too short |
| `LtsfDataset.DatasetCustom.GetItem` | sktime/networks/ltsf/data/dataset.py:135-157 | every part of an item is a slice of the split and holds no more rows than it. An item in range has `seq_len` encoder rows, `pred_len` target rows and `label_len + pred_len` decoder rows |
| `LtsfDataset.DatasetCustom.ItemEncoder` | sktime/networks/ltsf/data/dataset.py:135-144 | the encoder input of an item in range is rows `[index, index + seq_len)`, and its time marks are the same rows of the stamps |
| `LtsfDataset.DatasetCustom.ItemTarget` | sktime/networks/ltsf/data/dataset.py:137-157 | the target of an item in range is the `pred_len` rows right after its encoder input |
| `LtsfDataset.DatasetCustom.ItemDecoder` | sktime/networks/ltsf/data/dataset.py:137-155 | the decoder input of an item in range is the `label_len` rows before the encoder's end followed by `pred_len` zero rows, and its time marks cover the label rows and the target rows |
| `LtsfDataset.DatasetCustom.ItemsInRange` | sktime/networks/ltsf/data/dataset.py:159-160 | every index below the length reads whole windows |
| `LtsfDataset.DatasetCustom.ZeroPredLen` | sktime/networks/ltsf/data/dataset.py:146-156 | with `pred_len` 0 the target is the whole label window, not empty, and the decoder input is twice its length |
| `LtsfDataset.Create` | sktime/networks/ltsf/data/dataset.py:14-56 | `__init__` fails on a short `size` first, then on an unknown flag; otherwise it builds a new dataset of that split |
| `LtsfDataset.TrainTargetsEnd` | sktime/networks/ltsf/data/dataset.py:86-98 | the last training item predicts the last `pred_len` training rows |
| `LtsfDataset.ValTargetsStart` | sktime/networks/ltsf/data/dataset.py:91-96 | the first validation item reads the last `seq_len` training rows and predicts the rows right after them |
| `LtsfDataset.TestSingleItem` | sktime/networks/ltsf/data/dataset.py:94-96 | the test split holds exactly one item whatever `num_test` is, and it predicts the last `pred_len` rows of the data |

## Left out

- Tensor conversion, float32 casts and all floating-point work are not modelled. This includes the standard scaler, loss values and their average, and `int(len * 0.7)` and `int(len * 0.2)`. The split sizes `num_train` and `num_test` are parameters.
- Network forward passes, gradients and optimizer updates are not modelled. Training is a trace of calls.
- A network is applied window by window: batched application is taken to treat the rows of a batch independently.
- The loaders' shuffling is not modelled for training, where only the number of batches matters. The test loader is modelled in item order; see Findings.
- pandas calendar frequencies and `ForecastingHorizon` arithmetic are not modelled: times are integers with step one, and `fh` is given relative to the cutoff. `fh is None` falling back to the fitted horizon (`timesfm_forecaster.py:288-289`) is likewise not modelled.
- Instance indices with more than one level (the `ins.ndim > 1` branch) are not modelled; an instance id is one integer. For the same reason, `_to_multiindex`'s default instance name "h0_0" is an integer parameter.
- `ForecastingAdapter.Forecaster.Fit` requires every relative horizon step to be positive. `_build_network` on an in-sample last step is not modelled.
- `_build_network` of both base classes belongs to subclasses. The forecaster records only the (seq_len, pred_len) it asks for; the classifier's network is not modelled.
- The registries `optimizers` and `criterions` come from subclasses and are parameters, given as their keys. The forecaster's `criterion` attribute is also a parameter: `BaseDeepNetworkPyTorch.__init__` (`_pytorch.py:40-60`) never sets it, so on the base class alone `_instantiate_criterion` would raise AttributeError; subclasses set it.
- The following lemmas assume `seq_len > 0` and series at least `seq_len` long: `ForecastingAdapter.PredictPanelOutputs`, `ForecastingAdapter.PredictPanelRows`, `ForecastingAdapter.PredictPanelLabels`, `ForecastingAdapter.PredictSeries` and `ForecastingAdapter.TestOutputsLast`. `seq_len` 0 (`y[:, -0:, :]` keeps everything) is modelled by `ForecastingDatasets.TestCube` but not followed through to the forecast.
- The panel lemmas of both forecasters describe panels laid out as a product of sorted ids and one time index. Other layouts are handled by the functions but not described by a lemma.
- `LtsfDataset.DatasetCustom.GetItem` is stated fully only for indices that read whole windows (`ItemEncoder`, `ItemTarget`, `ItemDecoder`). Out-of-range indices follow Python slicing in the function, and its contract bounds their sizes, but no lemma describes their contents.
- `Reconstruction.LabelPredictions`: with outputs of zero steps, the width check uses the number of columns of `y`, where the code reads `pred.shape[-1]` of an empty tensor, which the model does not represent.
- `Dataset_Custom`'s `create_df`, the feature-mode column selection, `time_features` and the calendar marks are not modelled. The time-mark rows are given, one per data row. `inverse_transform` is not modelled either.
- TimesFM is missing the following:
  - loading the pretrained weights (`_fit_pytorch`, `_fit_source_package`);
  - the source-package path (`_predict_source_package`);
  - the backend;
  - the decoder's quantile output.
  The decoder itself is a function parameter. A decoder result with no rows is reported as the empty-concatenation error.
- The classifier's `_predict` and `_predict_proba` are empty stubs, and its verbose loss printing is not modelled.
- `custom_dataset_train`/`custom_dataset_pred` hooks are user-supplied objects and are not modelled.
- `build_pytorch_train_dataloader`, `build_pytorch_pred_dataloader` and `get_y_true` (`_pytorch.py:235-292`) are not modelled: they are not called by `_fit` or `_predict`. `PyTorchTrainDataset` and `PyTorchPredDataset` themselves are modelled.
- Broadcasting tags, verbose flags and `get_test_params` are not modelled.

## Findings

| source | as written | input that shows it | evidently intended | confidence | as-written member | corrected member |
|---|---|---|---|---|---|---|
| sktime/forecasting/base/adapters/_pytorch.py:233 | `build_dataloader` returns `DataLoader(dataset, batch_size, shuffle=True)` for the test split too. `_predict` stacks the outputs in the order the loader visits the windows, but labels them with the instances in sorted order | a panel of two instances 0 and 1 whose test loader visits the windows in the order [1, 0]: the rows labelled instance 0 hold the forecast made from instance 1's history | the test loader visits the windows in item order, so output `j` belongs to the `j`-th sorted instance | high; not executed | `ForecastingAdapter.ShuffledPanelRows` | `ForecastingAdapter.PredictPanelRows` |
