# OD growth finder: peak growth-rate selection

A Dafny model of the discrete logic of `OD_growth_experiment` in
`OD_growth_finder.py`. The program estimates the maximum exponential growth
rate of each well of a plate-reader experiment. For one well it takes the log
of the background-subtracted optical density (OD) and keeps only the finite
points. It fits a degree-5 smoothing spline to the kept points and evaluates
the spline's derivative at the kept times. It then reports the largest
derivative (the maximum log slope), the time where it occurs, and that
point's position in the series. A second routine draws a straight line with
that slope through the peak. A third visits every column whose name looks
like a well (a letter, then a digit) and collects one row per well.

Modules, one per component:

- `Common` (common.dfy): `Option`, `Result`, the errors the code can raise,
  and `LogValue`. A log-OD entry is either `Finite(v)` or `NonFinite` (the
  -inf or NaN that `np.log` returns for a non-positive reading).
- `Mask` (mask.dfy): boolean-mask indexing `xs[keep]`, the positions of the
  kept entries, and two ways of mapping a filtered index back to the
  unfiltered series. `OffsetIndex` is the source's way; `OriginalIndex` is
  the corrected one.
- `Peak` (peak.dfy): `np.argmax`, which returns the first index on ties.
- `Estimator` (estimator.dfy): `get_max_growth_rate`.
- `Prediction` (prediction.dfy): the prediction line of
  `plot_growth_prediction`.
- `Aggregator` (aggregator.dfy): the well-name test, the column loop of
  `get_all_growth_rates` as a method, and the function it is proved against.

Inputs that stay abstract:

- The log-OD series of each column is an input. `np.log` and the background
  subtraction are not modelled, but `np.isfinite` is, through `LogValue`.
- The spline fit and its derivative form a parameter,
  `SplineFit = (times, values, degree, s) -> Option<real -> real>`. `None`
  stands for the fit raising, for example on too few points. The derivative
  comes back as a function of time, and the model evaluates it at the kept
  times, as `der(elapsed_minutes)` does.
- Values are `real`, so the arithmetic is exact.

What the code does, and the model with it:

- The only filter is the finite-log one: points whose log OD is -inf or NaN
  are dropped before the fit, and nothing else is.
- Per-well errors are not caught. The first column that raises (a name too
  short for the well test, a failed fit, an empty argmax) ends the whole
  run. The model's result is then that error.
- The well-name test really does index `cur_col[1]`. A one-letter name
  raises `IndexError` and so does an empty name. A one-character name that
  is not a letter is skipped, because `and` short-circuits.
- The index the estimator returns is `maximum_index + np.sum(~to_keep)`
  (line 45), and it is that index that the prediction line (line 67) and the
  result rows (line 89) use. `Estimator.MaxGrowthRate`,
  `Prediction.GrowthPrediction` and `Aggregator.GetAllGrowthRates` model
  the code as written. The corrected estimator and line,
  `Estimator.MaxGrowthRatePeak` and `Prediction.GrowthPredictionPeak`, stand
  beside them (see "Findings" below).

## Model

| member | source | states |
|---|---|---|
| `Mask.Filter` | OD_growth_finder.py:29-32 | `xs[keep]` has exactly as many entries as the mask has true bits |
| `Mask.FilterAt` | OD_growth_finder.py:29-32 | the j-th entry of `xs[keep]` is the entry at the j-th true position, so the kept entries appear in their original order |
| `Mask.KeptIndices` | OD_growth_finder.py:29-32 | one kept position per true bit; each is in range and has its bit set |
| `Mask.KeptIndicesIncreasing` | OD_growth_finder.py:29-32 | the kept positions are strictly increasing |
| `Mask.KeptIndicesComplete` | OD_growth_finder.py:29-32 | every position whose bit is set is among the kept positions |
| `Mask.CountDropped` | OD_growth_finder.py:45 | `np.sum(~to_keep)` equals the series length minus the number of kept points |
| `Mask.OffsetIndex` | OD_growth_finder.py:45 | the source's returned index is the filtered index plus the dropped count; it is in range whenever the filtered index is |
| `Mask.OriginalIndex` | OD_growth_finder.py:45 | the corrected index is a kept position with exactly k kept positions before it, so it is the k-th kept entry |
| `Mask.OffsetIndexCorrectIff` | OD_growth_finder.py:45 | the source's index is never before the true position, and equals it if and only if no entry after that position was dropped |
| `Mask.FilterAllKept` | OD_growth_finder.py:31 | a mask with every bit set leaves the series unchanged |
| `Peak.ArgMax` | OD_growth_finder.py:41 | argmax of a non-empty sequence is in range, no entry is larger, and every entry before it is smaller (first occurrence on ties) |
| `Peak.ArgMaxUnique` | OD_growth_finder.py:41 | an index is a maximum with no equal entry before it if and only if it is the one ArgMax returns |
| `Peak.ArgMaxTieBreak` | OD_growth_finder.py:41 | for example, in `[1, 3, 2, 3]` the first of the two equal maxima, index 1, is chosen (the general rule is the third ensures of `ArgMax`) |
| `Estimator.FiniteMask` | OD_growth_finder.py:29 | the keep mask has one bit per reading, set exactly where the log OD is finite |
| `Estimator.KeptTimes` | OD_growth_finder.py:32 | the filtered time axis has one entry per finite point: the time at the j-th finite position |
| `Estimator.KeptLogOD` | OD_growth_finder.py:31 | the filtered log-OD values are the finite values at the kept positions, one per kept point |
| `Estimator.Fit` | OD_growth_finder.py:34-35 | the spline is fitted to the finite points only, as many times as values and in their original order, with degree 5 and the experiment's `s` |
| `Estimator.Slopes` | OD_growth_finder.py:38 | the derivative has one value per kept time |
| `Estimator.KeptSeriesAligned` | OD_growth_finder.py:29-32 | the filtered times and values have the same length, the number of finite points, and their j-th entries come from the same position |
| `Estimator.KeepFilterIdempotent` | OD_growth_finder.py:29-31 | filtering an already filtered log-OD series by its own finiteness mask returns it unchanged |
| `Estimator.SteepestKept` | OD_growth_finder.py:31-43 | a successful fit-and-argmax needs a time axis as long as the series, and the selected rank is that of a kept point |
| `Estimator.MaxGrowthRate` | OD_growth_finder.py:26-45 | `get_max_growth_rate` as written: a successful estimate needs a time axis as long as the series, and its index is inside the unfiltered series |
| `Estimator.MaxGrowthRatePeak` | OD_growth_finder.py:26-45 | the corrected estimator: a successful estimate needs a time axis as long as the series, and its index is inside the unfiltered series |
| `Estimator.MaxGrowthRateErrors` | OD_growth_finder.py:31-41 | the estimator fails exactly in three cases: the mask does not fit the time axis, the fit raises, or the fit succeeds with no finite point (empty argmax); the corrected estimator fails in the same cases with the same error |
| `Estimator.MaxGrowthRatePeakIsPeak` | OD_growth_finder.py:38-45 | on success the corrected index holds a finite value and its time is the reported time; the slope is the derivative there; no finite point has a larger derivative and every finite point before it has a smaller one |
| `Estimator.PeakInOriginalTerms` | OD_growth_finder.py:41-45 | the filtered argmax with its slope and time, read back at the corrected position of the unfiltered series |
| `Estimator.SourceIndexCorrectIff` | OD_growth_finder.py:41-45 | the estimate as written has the peak's slope and time; its index is the peak's rank among the kept points plus the dropped count, lies at or after the peak, and the two estimates are equal if and only if no point after the peak was dropped |
| `Estimator.SourceIndexSelectsPeak` | OD_growth_finder.py:45 | when every dropped point precedes the peak, the estimate as written is the corrected one and names the first steepest finite point |
| `Estimator.SourceIndexMissesLateDrop` | OD_growth_finder.py:45 | for six finite readings of `t*t/2` followed by a non-finite one (times 0 to 6, a fit whose derivative is `t`), the peak is at position 5 but the index as written is 6, the non-finite reading |
| `Prediction.PredictionLine` | OD_growth_finder.py:65-67 | `t*slope - slope*tmax + anchor` equals `slope*(t - tmax) + anchor`; it equals the anchor at `tmax`, and any two points differ by slope times their time difference; a non-finite anchor makes every point non-finite |
| `Prediction.LineValue` | OD_growth_finder.py:65-67 | one point of the line in the source's form is the point-slope form through `(tmax, anchor)` |
| `Prediction.GrowthPrediction` | OD_growth_finder.py:57-67 | `plot_growth_prediction` as written: the error of the estimate is passed on; otherwise the line has one point per sample, is the prediction line anchored at the log OD at the estimate's index, and is non-finite everywhere when that reading is |
| `Prediction.GrowthPredictionPeak` | OD_growth_finder.py:57-67 | the line anchored at the corrected estimate: errors are passed on; otherwise every point is finite and the line passes through the measured log OD at the peak |
| `Prediction.SourceLineAgrees` | OD_growth_finder.py:67 | when no point after the peak was dropped, the line the source draws is the line through the peak, and all its points are finite |
| `Prediction.SourceLineNonFiniteOnLateDrop` | OD_growth_finder.py:67 | on the late-drop series the source's line is non-finite, while the line through the peak takes the measured value 12.5 at the peak's time |
| `Aggregator.IsAlpha` | OD_growth_finder.py:83 | a character is a letter exactly when it is one of the 52 ASCII letters |
| `Aggregator.IsNumeric` | OD_growth_finder.py:83 | a character is numeric exactly when it is one of the ten ASCII digits |
| `Aggregator.WellNameTest` | OD_growth_finder.py:83 | the test raises exactly on an empty name or a one-letter name; otherwise it returns true exactly for a letter followed by a digit |
| `Aggregator.WellNameExamples` | OD_growth_finder.py:83 | 'Time' is skipped, 'A1' and 'H12' are wells, 'AB' and '1A' are not, '' and 'A' raise |
| `Aggregator.ColumnRow` | OD_growth_finder.py:83-91 | one column raises exactly when its name test raises or it is a well whose estimate raises; it contributes nothing exactly when the test says it is no well; otherwise its row holds its name and its estimate |
| `Aggregator.GrowthRates` | OD_growth_finder.py:81-91 | the column loop as a function: a successful run has at most one row per column |
| `Aggregator.PrefixErrorPersists` | OD_growth_finder.py:81-91 | once a column has raised, the result of the whole run is that error |
| `Aggregator.GrowthRatesOkIff` | OD_growth_finder.py:81-91 | the run succeeds if and only if no column raises |
| `Aggregator.GrowthRatesFirstError` | OD_growth_finder.py:81-91 | a failed run reports the error of a raising column, and every column before that one succeeded |
| `Aggregator.GrowthRatesRows` | OD_growth_finder.py:81-91 | a successful run has one row per well column in column order; each row holds its column's name and that column's estimate |
| `Aggregator.RowsReportPeaks` | OD_growth_finder.py:86-89 | each row of a successful run has its well's peak slope and peak time, and an index at or after the peak's position |
| `Aggregator.GetAllGrowthRates` | OD_growth_finder.py:77-91 | the loop's result is the column-by-column result; it succeeds exactly when no column raises, with one row `[well, growth_rate, max_time, max_index]` per well column in order, taken from that column's estimate as written (line 45's index); each row's slope and time are its well's peak, and its index is at or after the peak |

## Left out

- Reading the spreadsheet, `dropna` and the `Time` column lookup in `__init__` (lines 9-24): file I/O and pandas. `Aggregator.Experiment` holds the resulting fields as plain values.
- `np.log` of the background-subtracted readings (lines 27 and 60): floating-point and transcendental. The log series is an input, and only its finiteness is modelled.
- `UnivariateSpline` and `derivative()` (lines 34-35): a foreign numerical call. It is the `SplineFit` parameter, with degree 5 and the experiment's `s`. Its own checks (for a degree-5 spline, at least six points; ordered times) appear only as `None`, so a `SplineFit` argument may accept inputs the library rejects; the example fit `Estimator.RampFit` is used only on six kept points.
- NaN among the derivative values, and floating-point rounding in the line arithmetic: values are exact reals.
- `np.linspace` for the sample times around the peak (line 64): the sample times are an arbitrary input.
- All plotting and `savefig`, including `plot_raw_data` (lines 47-55, 62, 70-75, 93-96): drawing and file output.
- Building the data frame and `doubling_time = ln(2)/growth_rate` (lines 98-101): pandas and a transcendental constant. The model returns the rows.
- Aggregator.IsAlpha: recognises ASCII letters only, while Python's `str.isalpha` accepts every Unicode letter.
- Aggregator.IsNumeric: recognises ASCII digits only, while Python's `str.isnumeric` also accepts other numeric characters, such as superscripts and fractions.
- Column names that are not strings (pandas allows numbers): the model's names are strings.

## Findings

| source | as written | input that shows it | evidently intended | confidence | as-written member | corrected member |
|---|---|---|---|---|---|---|
| OD_growth_finder.py:45 | the filtered argmax is mapped back by adding the total number of dropped points, `maximum_index + np.sum(~to_keep)` | log OD `t*t/2` at times 0 to 5 (six finite points, enough for the degree-5 fit), then a non-finite reading at time 6: the peak is at position 5 but the returned index is 6; line 67 then anchors the plotted line at the non-finite reading | the position of the peak in the unfiltered series, which lines 45 and 67 rely on | not executed | `Estimator.SourceIndexMissesLateDrop` (on `Mask.OffsetIndex` through `Estimator.MaxGrowthRate`) | `Estimator.MaxGrowthRatePeakIsPeak` (on `Estimator.MaxGrowthRatePeak`) |

The source's mapping is `Mask.OffsetIndex`, and `Mask.OffsetIndexCorrectIff`
proves when it is right. The corrected mapping is `Mask.OriginalIndex`, which
`Estimator.MaxGrowthRatePeak` returns. The estimate and line as written agree
with the corrected ones exactly when every dropped point precedes the peak,
as `Estimator.SourceIndexCorrectIff`, `Estimator.SourceIndexSelectsPeak` and
`Prediction.SourceLineAgrees` show. Whatever the drops, the slope and time in
each result row are the peak's (`Aggregator.RowsReportPeaks`).
