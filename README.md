# romi cycle prediction, modelled in Dafny

romi predicts menstrual-cycle phases from a daily wrist-temperature series.
This project models the parts of the repository that carry the logic. Each
part is proved against a functional specification or its own stated
properties.

- **Spike detectors** (`PredictionPrimitives`). The detectors flag days whose
  temperature exceeds the trailing mean of the previous `n` days. The weighted
  detector also runs a two-state machine (`spiked_run`, `current_run_size`)
  that scales this threshold.
- **Period-adjusting predictor** (`MenstrualCyclePrediction`). This is the
  weighted detector extended with:
  - fertility and ovulation projections;
  - a five-day period window when a spike ends;
  - a reset when the ground truth reports a new period.
- **Signal utilities** (`DataProcessingUtils`):
  - date parsing and formatting;
  - the low-pass filter;
  - the linearly weighted past average;
  - in-place NaN filling;
  - the confusion matrix;
  - label synthesis with a fixed priority.
- **Scoring** (`Accuracy`). Exact, windowed and set-membership accuracy. Each
  has its own denominator and its own failures.
- **Data preparation loops**:
  - the readiness fill loops of the loader (`DataLoading`) and of the
    stand-alone script (`DataProcessing`);
  - the truth map and label alignment (`DataLoading`);
  - the in-place relabelling pass over the calendar (`CalendarDataAnnotate`).
- **Dashboard detectors** (`OvulationApp`):
  - the nadir-then-rise test;
  - the local-minimum candidate scan;
  - best-candidate and fallback selection;
  - the minimum-spacing filter on cycle starts.

Python semantics the code relies on are written out in `Common`:
- negative list indices wrap;
- slices clip;
- `/` by zero raises `ZeroDivisionError`;
- the exception kinds are a `PyError` datatype and results are
  `Result`/`Option` values.

Labels are a `Label` datatype with one constructor per spelling the code
compares against, plus `Other` for any other text. Signals are `seq<real>`.
Dates in the dashboard are day numbers.

Loops in the source are `method`s with `while` loops. Each is proved equal to
a fold over the input prefix, which serves as its reference definition. The
properties are proved about those folds:
- the trailing-window sum invariant;
- run-size bounds;
- ordering and membership of the emitted indices;
- round trips of date parsing;
- the bounds of the weighted average;
- what each fill, relabel and filter step leaves behind.

Two passes rewrite their input in place, and the model keeps it as an array:
- `remove_nan` is `DataProcessingUtils.RemoveNan`;
- the calendar relabelling is `CalendarDataAnnotate.Relabel`.

Three behaviours of the code that the model keeps as written:

- **`weighted_past_average`** gives the most recent value weight `n`, so
  `[1, 2, 3]` with `n = 3` gives 14/6
  (`DataProcessingUtils.PastAverageExample`).
- **The three accuracy functions** raise `ZeroDivisionError` on an empty
  denominator.
- **The ovulation forgiveness window** uses Python indexing. An index below 0
  wraps to the end of the list, and an index past the end raises
  `IndexError`.

`data_processing.py:6-36` repeats `low_pass`, `weighted_past_average` and
`identify_windowed_spikes` of the package word for word. `DataProcessing`
therefore runs the package's members (`LowPass`, `WeightedPastAverage`,
`IdentifyWindowedSpikes`) rather than second copies.

## Model

| member | source | states |
|---|---|---|
| PredictionPrimitives.IdentifyWindowedSpikes | menstrual_prediction_algorithm/prediction_primitives.py:4-15 | The result is the reference fold `WindowedSpikes`, and it is empty when len(data) <= n. The loop invariant keeps windowed_sum equal to the sum of the n values before day i. |
| PredictionPrimitives.WindowedSpikesCharacterized | menstrual_prediction_algorithm/prediction_primitives.py:7-13 | Exactly the days i in [n, len) whose value exceeds the mean of the n values before it are reported, in strictly increasing order. |
| PredictionPrimitives.WindowedSpikesUpToMembers | menstrual_prediction_algorithm/prediction_primitives.py:7-10 | After the days below k, i is reported iff n <= i < k and day i exceeds its trailing mean. |
| PredictionPrimitives.WindowedSpikesUpToIncreasing | menstrual_prediction_algorithm/prediction_primitives.py:7-10 | The reported days are strictly increasing. |
| PredictionPrimitives.AppendKeepsIncreasing | menstrual_prediction_algorithm/prediction_primitives.py:10 | Appending a day above every reported day keeps the list strictly increasing. |
| PredictionPrimitives.Transition | menstrual_prediction_algorithm/prediction_primitives.py:40-52 | After a day the run is spiked iff the value exceeded the threshold. A flip of the spiked flag leaves run size 1; otherwise the run grows by one. |
| PredictionPrimitives.IdentifyWeightedWindowedSpikes | menstrual_prediction_algorithm/prediction_primitives.py:17-54 | The result is the reference fold `WeightedSpikes`, and it is empty when len(data) <= n. |
| PredictionPrimitives.WeightedIteration | menstrual_prediction_algorithm/prediction_primitives.py:25-52 | One pass of the loop body moves the run state as `Transition` does, appends day i exactly when it crosses the weighted threshold, and slides windowed_sum to the next n days. |
| PredictionPrimitives.WeightedFoldNext | menstrual_prediction_algorithm/prediction_primitives.py:27-52 | One iteration applies `Transition` with the weighted threshold, and appends day i iff it exceeds that threshold. |
| PredictionPrimitives.ExceedsThreshold | menstrual_prediction_algorithm/prediction_primitives.py:27-40 | The spike test computed from run_weight (inverted outside a spike) and the running windowed_sum is true exactly when the day exceeds the weighted threshold of the reference definition. |
| PredictionPrimitives.WeightedFoldProperties | menstrual_prediction_algorithm/prediction_primitives.py:20-52 | After every prefix: the run size is at least 1, the spikes strictly increase, and day i is a spike iff n <= i < k and it exceeds the threshold of the state reached before it. |
| PredictionPrimitives.WeightedSpikesCharacterized | menstrual_prediction_algorithm/prediction_primitives.py:24-44 | The weighted spikes strictly increase. A day is reported iff it lies in [n, len) and exceeds the weighted threshold of its state. |
| PredictionPrimitives.RunSizePositive | menstrual_prediction_algorithm/prediction_primitives.py:20-52 | current_run_size >= 1 at the top of every iteration. |
| PredictionPrimitives.TransitionResetsRun | menstrual_prediction_algorithm/prediction_primitives.py:41-52 | Entering or leaving a spike on day i leaves current_run_size == 1 for day i+1. |
| PredictionPrimitives.FirstDecisionAgrees | menstrual_prediction_algorithm/prediction_primitives.py:20-40 | At i = n the weight is exactly 1, so the weighted detector reports n iff the unweighted one does. |
| PredictionPrimitives.FirstThresholdIsMean | menstrual_prediction_algorithm/prediction_primitives.py:20-40 | On day n the initial state (run size n, not spiked) has weight 2 - n/n = 1, so the weighted threshold is the trailing mean. |
| MenstrualCyclePrediction.FirstIndexOf | menstrual_prediction_algorithm/menstrual_cycle_prediction.py:97 | `labels.index`: the first position holding the label. |
| MenstrualCyclePrediction.InitialRunSize | menstrual_prediction_algorithm/menstrual_cycle_prediction.py:96-100 | The initial run size lies in [1, n]. |
| MenstrualCyclePrediction.InitialRunSizeFromLabels | menstrual_prediction_algorithm/menstrual_cycle_prediction.py:96-100 | A run size r < n means the first 'period' in labels[:n] is at n - r. r == n iff labels[:n] has no 'period' or labels[0] is 'period'. |
| MenstrualCyclePrediction.AppendDays | menstrual_prediction_algorithm/menstrual_cycle_prediction.py:104-128 | The inner `for j` loops append exactly the consecutive days i .. i+count-1. |
| MenstrualCyclePrediction.PeriodAdjustingIdentifyWeightedWindowedSpikes | menstrual_prediction_algorithm/menstrual_cycle_prediction.py:87-142 | The four lists are those of the reference fold `PeriodAdjusting`; all are empty when len(data) <= n. The labels may be one shorter than the data when they end in 'period' (`LabelsCover`). |
| MenstrualCyclePrediction.PeriodIteration | menstrual_prediction_algorithm/menstrual_cycle_prediction.py:103-140 | One pass of the loop body is one step `PeriodStep` of the reference fold (projection, spike test, period window, run clock, recalibration), and windowed_sum slides to the next n days. |
| MenstrualCyclePrediction.PeriodFoldNext | menstrual_prediction_algorithm/menstrual_cycle_prediction.py:102-140 | One loop iteration is the reference step `PeriodStep` on the state before it. |
| MenstrualCyclePrediction.ProjectionOnDay | menstrual_prediction_algorithm/menstrual_cycle_prediction.py:103-106 | When the run size is n-6 outside a spike, fertility gains exactly i..i+8 and ovulation gains i+6; otherwise both are unchanged. |
| MenstrualCyclePrediction.SpikeEndOnDay | menstrual_prediction_algorithm/menstrual_cycle_prediction.py:125-134 | When a spiked run ends on day i, period gains exactly i..i+4 and the next day starts unspiked with run size 1. |
| MenstrualCyclePrediction.RecalibrationOverrides | menstrual_prediction_algorithm/menstrual_cycle_prediction.py:138-140 | labels[i-1] != 'period' and labels[i] == 'period' end the iteration with run size 1 and not spiked, whatever the state before. |
| MenstrualCyclePrediction.ConsecutiveBounds | menstrual_prediction_algorithm/menstrual_cycle_prediction.py:104-105 | Helper for the bounds lemmas: every day of a consecutive block lies in [start, start+len). |
| MenstrualCyclePrediction.PeriodFoldLists | menstrual_prediction_algorithm/menstrual_cycle_prediction.py:103-128 | Through `ListsBounded`: len(fertility) == 9 * len(ovulation), and every ovulation day is also fertile. The projected days are unchecked: ovulation <= k+5, fertility <= k+7, period <= k+3. |
| MenstrualCyclePrediction.PeriodFoldSpikes | menstrual_prediction_algorithm/menstrual_cycle_prediction.py:107-134 | The run size stays >= 1. Day i is a spike iff it lies in [n, k) and exceeds the weighted threshold of its state. |
| MenstrualCyclePrediction.PeriodFoldSpikesOrdered | menstrual_prediction_algorithm/menstrual_cycle_prediction.py:124 | The spike days strictly increase. |
| MenstrualCyclePrediction.PeriodFoldOvulationOrdered | menstrual_prediction_algorithm/menstrual_cycle_prediction.py:106 | The projected ovulation days strictly increase. |
| MenstrualCyclePrediction.PeriodFoldOrdered | menstrual_prediction_algorithm/menstrual_cycle_prediction.py:106-124 | Spikes and ovulation days both strictly increase. |
| MenstrualCyclePrediction.FertilityCoversOvulation | menstrual_prediction_algorithm/menstrual_cycle_prediction.py:103-106 | On the whole run: len(fertility) == 9 * len(ovulation), and every ovulation day is also fertile. |
| MenstrualCyclePrediction.ProjectionBounds | menstrual_prediction_algorithm/menstrual_cycle_prediction.py:104-128 | Fertility days lie in [n, len(data)+7], ovulation days in [n+6, len(data)+5], period days in [n, len(data)+3]. |
| MenstrualCyclePrediction.PeriodSpikesCharacterized | menstrual_prediction_algorithm/menstrual_cycle_prediction.py:102-134 | Spikes and ovulation days strictly increase. A day is a spike iff it lies in [n, len) and exceeds the weighted threshold of its state. |
| MenstrualCyclePrediction.ShortLabelsEndingInPeriod | menstrual_prediction_algorithm/menstrual_cycle_prediction.py:138 | The `and` stops at labels[i-1] == 'period': with data [1.0, 2.0], labels ['period'] and n = 1 the run completes with spikes [1] and no other day. |
| MenstrualCyclePrediction.PhasesAgree | menstrual_prediction_algorithm/menstrual_cycle_prediction.py:169 | Two labels match iff they are equal, or one is 'period' and the other 'follicular'. |
| MenstrualCyclePrediction.PhasesAgreeIsForgivingEquality | menstrual_prediction_algorithm/menstrual_cycle_prediction.py:169 | The match is symmetric and reflexive, and two different labels match only when both are 'period'/'follicular'. |
| DataProcessingUtils.MakeDate | menstrual_prediction_algorithm/data_processing_utils.py:6 | `date(y, m, d)` succeeds iff the fields form a valid Gregorian date in years 1..9999. A field outside the C `int` range raises OverflowError; otherwise a failure is a ValueError. |
| DataProcessingUtils.MakeDateOverflows | menstrual_prediction_algorithm/data_processing_utils.py:6 | A year of 2^31 raises OverflowError, a year of 2^31-1 raises ValueError, and a day of 2^31 overflows even with an invalid month. |
| DataProcessingUtils.JoinSplit | menstrual_prediction_algorithm/data_processing_utils.py:5 | Joining the pieces of `split('-')` with '-' gives back the string. |
| DataProcessingUtils.SplitJoin | menstrual_prediction_algorithm/data_processing_utils.py:5 | Splitting a '-'-join of dash-free pieces gives back the pieces. |
| DataProcessingUtils.SplitSeparatorFree | menstrual_prediction_algorithm/data_processing_utils.py:5 | A string without '-' splits into itself alone. |
| DataProcessingUtils.SplitAtSeparator | menstrual_prediction_algorithm/data_processing_utils.py:5 | A split at the first '-' yields the text before it followed by the split of the rest. |
| DataProcessingUtils.ParseInt | menstrual_prediction_algorithm/data_processing_utils.py:6 | A digit string is accepted iff it has 1 to 4300 digits (Python's default conversion limit), and then reads as its decimal value; a failure is a ValueError. |
| DataProcessingUtils.NatToDigitsLength | menstrual_prediction_algorithm/data_processing_utils.py:9 | Helper for StrToDateFormatDate: a number below 10^k is written with at most k digits. |
| DataProcessingUtils.OverlongFieldRejected | menstrual_prediction_algorithm/data_processing_utils.py:5-6 | A single digit field longer than 4300 digits raises ValueError in `int`, before the missing second field is looked up. |
| DataProcessingUtils.StrToDateOverflows | menstrual_prediction_algorithm/data_processing_utils.py:5-6 | Three convertible digit fields whose year exceeds 2^31-1 make str_to_date raise OverflowError. |
| DataProcessingUtils.StrToDate | menstrual_prediction_algorithm/data_processing_utils.py:4-6 | A successful parse is a valid date; fewer than three '-'-separated fields fail. |
| DataProcessingUtils.StrToDateReadsThreeFields | menstrual_prediction_algorithm/data_processing_utils.py:5-6 | Only the first three fields are read: strings that agree on them parse alike. |
| DataProcessingUtils.SplitThreeFields | menstrual_prediction_algorithm/data_processing_utils.py:5 | "Y-M-D" with dash-free fields splits into exactly those three fields. |
| DataProcessingUtils.SplitFourFields | menstrual_prediction_algorithm/data_processing_utils.py:5 | "Y-M-D-rest" splits into the three fields followed by the split of rest. |
| DataProcessingUtils.ExtraFieldsIgnored | menstrual_prediction_algorithm/data_processing_utils.py:5-6 | "Y-M-D-rest" parses exactly like "Y-M-D". |
| DataProcessingUtils.NatToDigitsValue | menstrual_prediction_algorithm/data_processing_utils.py:9 | The decimal rendering of a number reads back as that number. |
| DataProcessingUtils.PadDigitsValue | menstrual_prediction_algorithm/data_processing_utils.py:9 | Zero-padding (as `%m`/`%d` do) does not change the value read back. |
| DataProcessingUtils.StrToDateFormatDate | menstrual_prediction_algorithm/data_processing_utils.py:4-9 | Parsing the `%Y-%m-%d` rendering of a valid date gives the date back. |
| DataProcessingUtils.PhaseFromDate | menstrual_prediction_algorithm/data_processing_utils.py:8-9 | The lookup succeeds iff the date's `%Y-%m-%d` rendering is a key, and raises KeyError otherwise. |
| DataProcessingUtils.PhaseOfParsedKey | menstrual_prediction_algorithm/data_processing_utils.py:4-9 | A key in canonical form is found again from the date it parses to. |
| DataProcessingUtils.UnpaddedKeyIsLost | menstrual_prediction_algorithm/data_processing_utils.py:4-9 | "2024-3-5" parses to 2024-03-05, but looking that date up in a map keyed "2024-3-5" raises KeyError. |
| DataProcessingUtils.LowPass | menstrual_prediction_algorithm/data_processing_utils.py:12-18 | The output has max(0, len - w) values, the i-th being the mean of data[i..i+w). The window starting at len - w is never emitted. A constant input gives that constant, and w = 0 on non-empty data raises ZeroDivisionError. |
| DataProcessingUtils.PastAverage | menstrual_prediction_algorithm/data_processing_utils.py:21-29 | With 1 <= n it fails with IndexError exactly when fewer than n values exist. n = 0 and n = -1 divide by zero, and n <= -2 gives 0. |
| DataProcessingUtils.WeightedPastAverage | menstrual_prediction_algorithm/data_processing_utils.py:21-29 | The accumulator loop computes `PastAverage`. |
| DataProcessingUtils.TotalWeightClosedForm | menstrual_prediction_algorithm/data_processing_utils.py:24-27 | The weights n, n-1, ... over m terms sum to m(2n-m+1)/2, which is n(n+1)/2 for m = n. |
| DataProcessingUtils.WeightedTailBounds | menstrual_prediction_algorithm/data_processing_utils.py:24-25 | The weighted sum lies between lo and hi times the total weight when the values do. |
| DataProcessingUtils.PastAverageIsWeightedMean | menstrual_prediction_algorithm/data_processing_utils.py:21-29 | The result is the sum of (n-i)*data[-1-i] divided by n(n+1)/2: the most recent value has weight n. |
| DataProcessingUtils.PastAverageBetween | menstrual_prediction_algorithm/data_processing_utils.py:24-27 | The result lies between the minimum and maximum of the last n values. |
| DataProcessingUtils.PastAverageOfEqualValues | menstrual_prediction_algorithm/data_processing_utils.py:24-27 | Of n equal values, the average is that value. |
| DataProcessingUtils.PastAverageExample | menstrual_prediction_algorithm/data_processing_utils.py:21-29 | [1, 2, 3] with n = 3 gives 14/6. |
| DataProcessingUtils.NanPositions | menstrual_prediction_algorithm/data_processing_utils.py:33 | `data[data.isna()].index` lists only valid positions. |
| DataProcessingUtils.NanPositionsExact | menstrual_prediction_algorithm/data_processing_utils.py:33 | Those positions hold NaN and ascend. |
| DataProcessingUtils.GapIndex | menstrual_prediction_algorithm/data_processing_utils.py:33 | Every NaN position is listed. |
| DataProcessingUtils.FillValue | menstrual_prediction_algorithm/data_processing_utils.py:34 | The weighted average of the slice before a gap raises IndexError iff the slice holds fewer than 3 values. |
| DataProcessingUtils.FillStep | menstrual_prediction_algorithm/data_processing_utils.py:34 | One fill changes only position i, to the weighted average of the values before it. A raising fill changes nothing. |
| DataProcessingUtils.FillGapsNext | menstrual_prediction_algorithm/data_processing_utils.py:33-34 | The next gap in ascending order is filled from the current series, or the pass stops with the fill's error. |
| DataProcessingUtils.RemoveNan | menstrual_prediction_algorithm/data_processing_utils.py:32-35 | The array is rewritten in place to the reference result, and the error (if any) is the reference error. |
| DataProcessingUtils.FillGapsUnchanged | menstrual_prediction_algorithm/data_processing_utils.py:33-34 | Non-NaN entries and gaps not yet reached keep their value. |
| DataProcessingUtils.FillGapsNumbers | menstrual_prediction_algorithm/data_processing_utils.py:33-34 | Every position before the next gap holds a number. |
| DataProcessingUtils.FillGapsLater | menstrual_prediction_algorithm/data_processing_utils.py:33-34 | Later fills do not disturb an earlier fill: each filled value still equals the average of what now precedes it. |
| DataProcessingUtils.RemoveNanFillsEveryGap | menstrual_prediction_algorithm/data_processing_utils.py:32-35 | A pass that does not raise leaves no NaN. Other entries are unchanged, and each gap holds the weighted average of the n values before it, earlier fills included. |
| DataProcessingUtils.OutcomeOf | menstrual_prediction_algorithm/data_processing_utils.py:42-55 | TP, FN, FP or TN exactly as the day is or is not in the true and the predicted set. |
| DataProcessingUtils.ComputeConfusionMatrix | menstrual_prediction_algorithm/data_processing_utils.py:38-57 | The four lists are the days of each outcome in order. The stream has one tag per day in [0, total), each the day's outcome. |
| DataProcessingUtils.DaysWithOutcomeMembers | menstrual_prediction_algorithm/data_processing_utils.py:41-55 | A day is in an outcome's list iff it lies in [0, k) and has that outcome. |
| DataProcessingUtils.DaysWithOutcomeCount | menstrual_prediction_algorithm/data_processing_utils.py:41-55 | The four lists together hold max(0, k) days. |
| DataProcessingUtils.ConfusionMatrixPartitions | menstrual_prediction_algorithm/data_processing_utils.py:38-57 | Every day in [0, total) is in exactly the list its true/predicted membership calls for, and the sizes add up to total. |
| DataProcessingUtils.GeneratedLabel | menstrual_prediction_algorithm/data_processing_utils.py:65-74 | Priority ovulation > fertile > luteal > period > follicular, each stated both ways. |
| DataProcessingUtils.CreateGeneratedLabels | menstrual_prediction_algorithm/data_processing_utils.py:62-75 | Gives num_data_points labels, the i-th by priority. Indices >= num_data_points are never consulted. |
| Accuracy.Ratio | menstrual_prediction_algorithm/accuracy.py:18 | The division raises ZeroDivisionError iff the denominator is 0; otherwise ratio * considered == correct. |
| Accuracy.ComputeAccuracy | menstrual_prediction_algorithm/accuracy.py:4-18 | The counting loop computes the reference `AccuracyResult`. |
| Accuracy.AccuracyTallyBound | menstrual_prediction_algorithm/accuracy.py:8-15 | correct + missing never exceeds the number of days counted. |
| Accuracy.AccuracyTallyMissing | menstrual_prediction_algorithm/accuracy.py:9-10 | total_missing is the number of 'missing' labels in the range. |
| Accuracy.AccuracyCounts | menstrual_prediction_algorithm/accuracy.py:8-18 | With warmup < len: considered = len - warmup - missing, 0 <= total_correct <= considered, and the ratio is in [0, 1]. |
| Accuracy.RatioBounds | menstrual_prediction_algorithm/accuracy.py:18 | Helper for the accuracy bounds: correct/considered lies in [0, 1] when 0 <= correct <= considered. |
| Accuracy.AccuracyTallyAgrees | menstrual_prediction_algorithm/accuracy.py:11-15 | Prediction sets that agree on the counted days give the same tally. |
| Accuracy.PredictionsOutsideIgnored | menstrual_prediction_algorithm/accuracy.py:8-15 | Predictions below warmup or at or beyond len(labels) do not change the result. |
| Accuracy.PerfectTally | menstrual_prediction_algorithm/accuracy.py:11-15 | When exactly the luteal/ovulation days are predicted, every non-missing day is correct. |
| Accuracy.PerfectPredictionsScoreOne | menstrual_prediction_algorithm/accuracy.py:8-18 | Predicting exactly the luteal and ovulation days scores 1. |
| Accuracy.AllMissingTally | menstrual_prediction_algorithm/accuracy.py:9-10 | Days all 'missing' count as missing, none correct. |
| Accuracy.AllMissingRaises | menstrual_prediction_algorithm/accuracy.py:18 | When every day from warmup on is 'missing', the call raises ZeroDivisionError. |
| Accuracy.AccuracyExample | menstrual_prediction_algorithm/accuracy.py:4-18 | A four-day example scores 4/4. |
| Accuracy.ScanFindsOvulation | menstrual_prediction_algorithm/accuracy.py:26-29 | The inner scan finds 'ovulation' iff some index before hi holds it with no raising index before it. |
| Accuracy.ScanRaises | menstrual_prediction_algorithm/accuracy.py:26-27 | The scan raises iff it reaches an index outside [-len, len) before finding 'ovulation'; the error is IndexError. |
| Accuracy.ScanWindow | menstrual_prediction_algorithm/accuracy.py:26-29 | The inner `for j` loop with `break` computes the window scan; any failure is IndexError. |
| Accuracy.ComputeOvulationAccuracy | menstrual_prediction_algorithm/accuracy.py:20-33 | The loop over the prediction set computes the reference `OvulationResult`. |
| Accuracy.OvulationCorrectBounded | menstrual_prediction_algorithm/accuracy.py:24-29 | Each prediction is credited at most once: 0 <= total_correct <= len(preds). |
| Accuracy.SubsetCardinality | menstrual_prediction_algorithm/accuracy.py:24-29 | Helper for the accuracy bounds: the credited predictions, a subset, are no more than the predictions. |
| Accuracy.OvulationWarmupOnlyInDenominator | menstrual_prediction_algorithm/accuracy.py:24-31 | The warmup does not affect total_correct: predictions are not filtered by it. |
| Accuracy.OvulationRatioAboveOne | menstrual_prediction_algorithm/accuracy.py:24-33 | Two predictions near one ovulation day score 2/1: the ratio can exceed 1. |
| Accuracy.OvulationWindowWraps | menstrual_prediction_algorithm/accuracy.py:26-27 | The window of day 0 reaches index -1, which wraps to the last label. |
| Accuracy.OvulationWindowOverruns | menstrual_prediction_algorithm/accuracy.py:26-27 | A window past the end of the labels raises IndexError. |
| Accuracy.ComputeFertilityAccuracy | menstrual_prediction_algorithm/accuracy.py:35-45 | The loop over the prediction set computes the reference `FertilityResult`. |
| Accuracy.FertilityCorrectBounded | menstrual_prediction_algorithm/accuracy.py:39-41 | 0 <= total_correct <= len(preds). A prediction is credited iff its label, under Python indexing, is 'ovulation' or 'fertile'. |
| DataLoading.LoadTemperatures | menstrual_prediction_algorithm/data_loading.py:34-54 | The readiness loop computes the reference `LoadedTemps`. |
| DataLoading.FailureKeepsFailing | menstrual_prediction_algorithm/data_loading.py:44-54 | The uncaught IndexError of a fill aborts the whole load. |
| DataLoading.LoadedTempsMeaning | menstrual_prediction_algorithm/data_loading.py:36-54 | The load succeeds iff no entry parses to a non-dict (AttributeError), no entry makes `literal_eval` raise TypeError, and every fill has at least 3 values before it. On success there is one value per entry, readings (0 included) are kept, and each fill is the weighted average of the values before it, earlier fills included. |
| DataLoading.EarlyGapAborts | menstrual_prediction_algorithm/data_loading.py:44-54 | A gap among the first three entries makes the load raise IndexError. |
| DataLoading.ZeroReadingKept | menstrual_prediction_algorithm/data_loading.py:42-43 | A reading of 0 is appended unchanged. |
| DataLoading.LoadTruthMap | menstrual_prediction_algorithm/data_loading.py:68-73 | The dict-building loop computes the reference `TruthMap`. |
| DataLoading.BuildTruthMap | menstrual_prediction_algorithm/data_loading.py:70-71 | The loop over the zipped rows computes the reference fold for any date parser. |
| DataLoading.TruthMapNext | menstrual_prediction_algorithm/data_loading.py:71 | One row sets the parsed date's entry to its label, or raises the parse error. |
| DataLoading.TruthMapFailureSticks | menstrual_prediction_algorithm/data_loading.py:70-71 | A parse error aborts the build. |
| DataLoading.TruthMapMeaning | menstrual_prediction_algorithm/data_loading.py:70-71 | The build fails iff some row's day fails to parse. On success the keys are exactly the parsed days, and each maps to the label of its last row. |
| DataLoading.TruthMapKeepsLastLabel | menstrual_prediction_algorithm/data_loading.py:70-71 | The same with `str_to_date`: for a repeated date the last label seen wins. |
| DataLoading.RepeatedDateKeepsLast | menstrual_prediction_algorithm/data_loading.py:70-71 | Two rows for one date keep the second label. |
| DataLoading.AlignLabels | menstrual_prediction_algorithm/data_loading.py:94-101 | One label per date, in order: the mapped label when the date is present, 'missing' otherwise. |
| DataProcessing.CollectTemperatures | data_processing.py:42-57 | The readiness loop of `main` computes the reference `CollectedTemps`. |
| DataProcessing.CollectedAtMostOnePerEntry | data_processing.py:43-57 | Nothing is appended twice per entry, so tempData is never longer than the input. |
| DataProcessing.CollectedAgreesWithLoaded | data_processing.py:42-57 | Without zero readings, absent keys, unparseable or non-record entries, and when the loader succeeds, both loops collect the same values. |
| DataProcessing.ZeroReadingFilled | data_processing.py:47-51 | A real 0.0 reading is falsy and is replaced by the weighted average of the last 3 values. |
| DataProcessing.EarlyGapDropped | data_processing.py:50-57 | A gap with fewer than 3 prior values appends nothing: the exception is swallowed and tempData is shorter than the input. |
| DataProcessing.EvalTypeErrorSeparatesLoops | data_processing.py:42-57 | An entry on which `literal_eval` raises TypeError aborts load_raw_data (its handler names only ValueError and SyntaxError, data_loading.py:52) but is skipped by `main`'s bare `except`. |
| DataProcessing.DetectSpikes | data_processing.py:59-61 | Only the first 100 smoothed values, each the mean of 3 readings, reach the detector. The detector reports exactly the i in [14, len) that exceed their trailing 14-mean. |
| CalendarDataAnnotate.Relabel | calendar_data_annotate.py:6-20 | The in-place pass leaves the column and the raising index given by the reference `Relabelled`. |
| CalendarDataAnnotate.FailureSticks | calendar_data_annotate.py:17-18 | After the raise, nothing further changes. |
| CalendarDataAnnotate.RelabelPrefix | calendar_data_annotate.py:8-20 | After k iterations without raising: the first k days hold no gap, non-gaps are unchanged, each gap took its predecessor's fill label, later days are untouched, and prev is the last day written. |
| CalendarDataAnnotate.RelabelCompleted | calendar_data_annotate.py:8-20 | A completed pass keeps the row count, leaves no 'fertile'/'no_phase', keeps other labels, and fills each gap luteal after ovulation/luteal and follicular after period/follicular. |
| CalendarDataAnnotate.RelabelFailure | calendar_data_annotate.py:12-18 | If the pass raises at i, day i is a gap after a label other than the four. Days before are relabelled, day i is 'no_phase', days after are untouched. |
| CalendarDataAnnotate.RaisesAtUnknownGap | calendar_data_annotate.py:12-18 | Conversely, a gap reached while the previous label is none of the four makes the whole pass raise at that index. |
| CalendarDataAnnotate.LeadingGapsLuteal | calendar_data_annotate.py:6-16 | prev starts as 'luteal', so leading gaps (and 'fertile') become 'luteal'. |
| CalendarDataAnnotate.GapAfterUnknownRaises | calendar_data_annotate.py:9-18 | A 'fertile' day after 'missing' raises at its index. |
| OvulationApp.Rises | ovulation_hackathon_app.py:93-95 | `window - base`: the rise_days differences after idx. |
| OvulationApp.ClipBelowZero | ovulation_hackathon_app.py:98 | `clip(lower=0)` elementwise. |
| OvulationApp.NadirThenRiseMeaning | ovulation_hackathon_app.py:89-98 | idx + rise_days >= len gives (False, None, 0.0). Success holds iff every one of the next rise_days values rises at least rise_min; it then names idx+1 and scores >= rise_min. Otherwise the score (clipped mean) is >= 0. |
| OvulationApp.DetectOvulationCandidates | ovulation_hackathon_app.py:101-122 | The loop over days 1..len-2 computes the reference `CandidatesUpTo`. |
| OvulationApp.CandidatesNext | ovulation_hackathon_app.py:105-121 | One iteration appends day i's candidate, if it has one, and nothing else. |
| OvulationApp.CandidatesMeaning | ovulation_hackathon_app.py:105-121 | Every candidate comes from a day i in [1, len-2] that is inside the search window, strictly below both neighbours, and followed by a sustained rise. Every such day gives a candidate. |
| OvulationApp.CandidateFields | ovulation_hackathon_app.py:113-121 | A candidate's nadir date is dates[i], its ovulation date dates[i+1] and its mean rise >= rise_min. It is 'high' iff the mean >= 0.30 and rise_days >= 3. |
| OvulationApp.PickBestFallback | ovulation_hackathon_app.py:125-145 | None iff the segment has fewer than rise_days + 2 rows. Otherwise it returns the day of maximal score (mean rise, plus 0.05 for a strict nadir), the earliest on ties, with its dates. |
| OvulationApp.FallbackTakesHigher | ovulation_hackathon_app.py:141-142 | A strictly higher score replaces the best. |
| OvulationApp.FallbackKeepsEarlier | ovulation_hackathon_app.py:141 | A score that is not higher keeps the earlier best. |
| OvulationApp.ChooseBestCandidate | ovulation_hackathon_app.py:147-150 | None iff the list is empty. Otherwise a candidate of maximal rise_mean_c, the first such, as `max` returns. |
| OvulationApp.SpacedStarts | ovulation_hackathon_app.py:157-166 | The spacing loop computes the reference `SpacedUpTo`; max_cycle_len is accepted and unused. |
| OvulationApp.SpacedStartsInOrder | ovulation_hackathon_app.py:158-165 | The accepted starts are dip days, taken in increasing position. |
| OvulationApp.SpacedStartsApart | ovulation_hackathon_app.py:162-165 | Consecutive accepted starts are at least min_cycle_len days apart. |
| OvulationApp.SpacedDropsOnlyCloseDips | ovulation_hackathon_app.py:162-163 | A dip is dropped iff the last accepted start lies fewer than min_cycle_len days before it. |

## Left out

- File and CSV/JSON input, `ast.literal_eval`, `json.loads`, pandas column handling, rolling medians, `interpolate`, `to_datetime`. A readiness entry is already classified (`DataLoading.ReadinessEntry`: not a string, `literal_eval` raising ValueError/SyntaxError, raising TypeError, a non-dict value, or a dict); the truth file is two columns of day strings and labels.
- Floating point: values are mathematical reals, so rounding and the drift of the running `windowed_sum` against a recomputed sum are not modelled. NaN exists only as the `None` of `remove_nan`'s series; the dashboard's NaN skips (ovulation_hackathon_app.py:111-112, 133-135) are not modelled.
- PredictionPrimitives.IdentifyWindowedSpikes: requires n >= 1; n = 0 divides by zero and a negative n slices from the end in Python.
- PredictionPrimitives.IdentifyWeightedWindowedSpikes: requires n >= 1, for the same reason.
- MenstrualCyclePrediction.PeriodAdjustingIdentifyWeightedWindowedSpikes: requires n >= 1 and, when the loop runs, labels at least as long as the data or one shorter and ending in 'period' (`LabelsCover`); the source raises IndexError on any other shorter labels.
- DataProcessingUtils.LowPass: the window size is a natural number; a negative window is not modelled.
- DataProcessingUtils.ParseInt: an optional sign and ASCII digits are accepted; the surrounding blanks, digit underscores and non-ASCII Unicode decimal digits (such as fullwidth digits) that Python `int()` also accepts are rejected, and only unsigned digit strings are proved to read as their value.
- DataProcessingUtils.ParseInt: the 4300-digit limit is the default of Python 3.11 onward (and of the security releases that introduced it); older interpreters, or a changed `sys.set_int_max_str_digits`, accept longer strings.
- DataLoading.LoadTemperatures: of the exceptions `literal_eval` raises besides ValueError and SyntaxError, only TypeError has a readiness-entry class; RecursionError or MemoryError from a deeply nested or huge literal (interpreter resource limits), which would also abort the load, are not modelled.
- DataProcessing.CollectTemperatures: for the same reason, a RecursionError or MemoryError out of `literal_eval`, which the bare `except` would swallow, is not modelled.
- DataProcessingUtils.FormatDate: four-digit zero padding of `%Y` for years below 1000 is what the model writes; platform differences of `strftime` are not modelled.
- DataLoading.LoadedTempsMeaning: a temperature_deviation that is neither None, "" nor a number is not modelled.
- OvulationApp.NadirThenRiseMeaning: requires idx >= 0 and rise_days >= 1; rise_days = 0 gives the mean of an empty window (NaN).
- OvulationApp.DetectOvulationCandidates: requires rise_days >= 1, as find_nadir_then_rise does; rise_days = 0 gives NaN means.
- OvulationApp.PickBestFallback: requires rise_days >= 1; rise_days = 0 gives NaN scores, and a negative rise_days reaches `seg.loc[len(seg)]`, which raises KeyError (ovulation_hackathon_app.py:128-135).
- OvulationApp.PickBestFallback: the date filtering and sorting of the segment are done by the caller; the segment comes in already restricted and sorted.
- OvulationApp.SpacedStarts: the dip series is an input; how infer_menses_starts computes it (rolling median, `diff`) is not modelled.
- `label_phases`, `extract_trend_first`, `prepare_df` and the Streamlit/matplotlib code of the dashboard, the plotting in visualize.py and data_processing.py, and the `compute_*` drivers of menstrual_cycle_prediction.py (printing, plotting and `breakpoint()` around the members modelled here).
- The other drivers and clients (dev_data_driver.py, validation_data_driver.py, data_exploration.py, gptAPIChat.py, the Arduino sketch, the mobile app): they hold no logic of the core.
- Output effects inside the modelled loops are dropped: the `print` of compute_accuracy (accuracy.py:17), the `warnings.warn` calls of data_loading.py:49, 53 and 100, and the `print` calls of data_processing.py:55 and 57. The model computes the same values without them.
- Label spellings: `Common.Label.Other` stands only for spellings outside the seven named ones. A value such as `Other("period")` is not one the model treats as 'period', so it must not be used for a named spelling.
- pandas copy-on-write around the chained assignments of calendar_data_annotate.py:10, 14, 16: the model performs the intended in-place update.
