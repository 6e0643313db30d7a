# Anomaly detector core: severity tiers and model lifecycle

This project models the decision core of a streaming anomaly-detection
dashboard for a daily telemetry series (reaction-wheel temperature). The
detector (`ADetector`) fits a seasonal forecasting model, keeps a forecast
table over a horizon of `period` days, and classifies the residuals of the
slice being shown into severity tiers. Each point's error is the absolute
residual `|y - yhat|`. The mean and the population standard deviation of
all the errors are computed once. A point's impact is then the largest `i+1`
whose threshold `mean + std * stds[i]` the error lies strictly above, or 0
(default multipliers `[2, 4, 8]`). On every timer tick the dashboard
(`update_graphs`) decides whether to retrain and whether to re-forecast,
then always re-predicts and reclassifies.

Modules:

- `Series` (series.dfy): dates as integer day numbers, points `(ds, y)`.
- `Severity` (severity.dfy): mean, population variance, the threshold test,
  the specification `Tier` of a point's final impact, and the tiering loop
  `ClassifyErrors` over arrays, proved against `Tier`.
- `Detector` (detector.dfy): the class `ADetector` with its lifecycle fields
  (`params`, `modelInitDate`, `period`, `model`, `forecast`) and the
  prediction table's columns (`anomaly` and `impact` are arrays). Its
  methods are proved against the pure functions `ForecastTable`, `Evaluate`
  and `Classified`.
- `App` (app.dfy): the prefix slice `SubData`, the two guards
  `NeedsRetrain` and `NeedsReforecast`, start-up (`Launch`) and one tick
  (`UpdateGraphs`).

The forecasting library is a `Library` value holding two total functions.
`predict(model, date)` gives the point forecast. `futureDates(model, period)`
gives the dates of the forecast table. A fitted model is the value
`Model(ConfigFor(params), training series)`, so refitting the same series
with the same parameters gives the same forecasts. The library raises
in the three ways the detector's own code reaches, and each becomes a `Fail` outcome. `EmptySeries` is the last row
of an empty series being read. `InsufficientData` is a fit on fewer than two
rows. `NotFitted` is a forecast asked for before a successful fit. A failing
method leaves the fields that the source had already assigned before the
raising line.

No square root is taken. `Exceeds(e, mean, variance, k)` decides
`e > mean + std * k` from the variance alone. `ExceedsIffAboveThreshold`
proves that it agrees with the source's test for every `std >= 0` with
`std * std == variance`. The threshold lemmas (`TierIsLargestExceeded`,
`AnomalousIffSomeThresholdExceeded`, `TiersNestForAscendingStds`,
`ClassifiedTierIsLargestThreshold`, `LoneSpikeExceedsIff`) are stated in the
source's own terms, with `AboveThreshold` and a `std`. `Tier` itself takes the
variance, and so do the lemmas that give a tier outright
(`TierWithZeroVariance`, `LoneSpikeAmongSixtyGetsTierTwo`).

Where the code behaves otherwise than one might expect, the model follows
the code:

- One might expect a zero spread to flag every deviation, or to need a
  special case. In the code, the mean and the spread are taken over the
  same errors. A zero population variance then makes every error equal to the mean, so no point is flagged
  (`NoSpreadMeansAllAtMean`, `ClassifiedWithNoSpreadFlagsNothing`). The
  threshold rule alone would give an error above the mean the top tier
  `len(stds)` (`TierWithZeroVariance`). That case arises only with
  statistics taken from other data, or through float rounding, which the
  model does not have.
- One might expect a lone spike after a constant run to get the top tier.
  In the code, the mean and spread include the spike. Among `n` exact
  forecasts, the spike exceeds multiplier `k` iff `n > k*k`
  (`LoneSpikeExceedsIff`). With 60 points and `[2, 4, 8]`, it gets tier 2
  (`LoneSpikeAmongSixtyGetsTierTwo`).
- One might expect a retrain when the chosen seasonalities change as a
  *set*. The code compares the parameter *lists*, in order.
- One might expect a re-forecast to extend the table once the observed
  points run past it. The code re-forecasts when the slice end `index`
  reaches the forecast table's length, and `index` may pass the length of
  the data. The future dates depend only on the model and the horizon. So
  with the model and the horizon unchanged, the re-forecast rebuilds the
  same table (`UpdateGraphs`), and every later tick does so again until the
  next retrain.

## Model

| member | source | states |
|---|---|---|
| `Severity.ExceedsIffAboveThreshold` | anomaly_detection.py:78-81 | the variance-based test agrees with `error > mean + std * num_stds` for every non-negative std |
| `Severity.Tier` | anomaly_detection.py:75-81 | a point's final impact lies in `0..len(stds)` |
| `Severity.TierIsLargestExceeded` | anomaly_detection.py:75-81 | the final impact t is the largest i+1 whose threshold the error exceeds: threshold t-1 is exceeded when t > 0, no threshold from t on is exceeded; holds for any order of `stds` |
| `Severity.AnomalousIffSomeThresholdExceeded` | anomaly_detection.py:80-81 | impact > 0 exactly when at least one threshold is exceeded |
| `Severity.TierWithZeroVariance` | anomaly_detection.py:78-81 | with a zero variance every threshold is the mean: an error above it gets impact `len(stds)`, any other error 0 |
| `Severity.TiersNestForAscendingStds` | anomaly_detection.py:75-81 | for ascending multipliers a point exceeds threshold i exactly when i < its impact |
| `Severity.Mean` | anomaly_detection.py:68 | the mean times N is the sum of the errors; 0 for an empty slice, where NumPy gives nan |
| `Severity.PopVariance` | anomaly_detection.py:69 | the square of `std(ddof=0)`: the variance times N is the sum of squared deviations from the mean (divisor N, not N-1); 0 for an empty slice |
| `Severity.PopVarianceNonNegative` | anomaly_detection.py:69 | the population variance of the errors is never negative |
| `Severity.NoSpreadMeansAllAtMean` | anomaly_detection.py:68-69 | a zero population variance forces every error to equal the mean |
| `Severity.ConstantErrorsHaveNoSpread` | anomaly_detection.py:68-69 | identical errors have that value as mean and zero variance |
| `Severity.LoneSpikeMean` | anomaly_detection.py:68 | one error c after n zero errors has mean c/(n+1): the spike is counted in the mean |
| `Severity.LoneSpikeVariance` | anomaly_detection.py:69 | the same errors have population variance a*a*n with a = c/(n+1), divisor n+1 |
| `Severity.LoneSpikeExceedsIff` | anomaly_detection.py:67-81 | with one error c among n zero errors, statistics taken over all n+1, c lies above `mean + std * k` for k >= 0, for the population std of those errors, iff n > k*k; the same holds for the variance-based test |
| `Severity.LoneSpikeAmongSixtyGetsTierTwo` | anomaly_detection.py:63-81 | a lone spike among 60 exact forecasts gets impact 2 with the default `[2, 4, 8]` |
| `Severity.ClassifyErrors` | anomaly_detection.py:67-81 | the columns are new arrays, one entry per error; after the loop over the multipliers each point's impact is its `Tier` over the mean and variance of all errors, and it is anomalous iff impact > 0 |
| `Detector.ConfigFor` | anomaly_detection.py:31-42 | daily iff "D" is in the params, weekly iff "W", yearly iff "Y"; the library defaults iff none of them |
| `Detector.FittedModel` | anomaly_detection.py:35-44 | the fit on `df` with `params` is trained on exactly `df`, with daily, weekly and yearly seasonality iff "D", "W", "Y" are in `params`, and the library defaults when none is |
| `Detector.ForecastTable` | anomaly_detection.py:50-55 | one row per future date of the model and horizon, each carrying the model's forecast at that date |
| `Detector.Forecasts` | anomaly_detection.py:59 | one forecast per row of the series, the model's forecast at that row's date |
| `Detector.Residuals` | anomaly_detection.py:65-66 | residual j is y[j] - yhat[j], one per row |
| `Detector.Errors` | anomaly_detection.py:67 | error j is the absolute residual j: non-negative and equal to it up to sign |
| `Detector.Classified` | anomaly_detection.py:63-81 | the table keeps its dates, actuals and forecasts, all columns aligned; impacts lie in `0..len(stds)`; anomaly iff impact > 0 |
| `Detector.ClassifiedTierIsLargestThreshold` | anomaly_detection.py:65-81 | in the classified table, point j's impact is the largest i+1 with `|y - yhat| > mean + std * stds[i]`, mean and std over all points' errors, and anomalous iff some threshold is exceeded |
| `Detector.ClassifiedWithNoSpreadFlagsNothing` | anomaly_detection.py:67-81 | when the table's errors have zero variance, every impact is 0 and no point is anomalous |
| `Detector.Evaluate` | anomaly_detection.py:57-61 | the prediction table is aligned one-to-one with the series: same dates and actuals, the model's forecasts, residual actual minus forecast |
| `Detector.ADetector.constructor` | anomaly_detection.py:17-25 | a new detector has horizon 30, no model, empty tables |
| `Detector.ADetector.UpdateModel` | anomaly_detection.py:27-46 | params set to the argument, cutoff to the series' last date, horizon unchanged; on success the model is the fit on the series, the forecast table is rebuilt for the kept horizon and the prediction table is the series' evaluation; an empty series or one row fails, leaving the fields the source had set |
| `Detector.ADetector.FutureDataframe` | anomaly_detection.py:48-55 | stores the new horizon and rebuilds the forecast table from the current model; params, cutoff, model and prediction table unchanged; fails without a fitted model |
| `Detector.ADetector.PredictDataframe` | anomaly_detection.py:57-61 | the prediction table becomes the evaluation of the series with the default multipliers; the lifecycle fields are unchanged |
| `Detector.ADetector.ClassifyAnomaly` | anomaly_detection.py:63-81 | residual, anomaly and impact columns are replaced by the classification of the current actuals and forecasts, the flag columns in new arrays; nothing else changes |
| `App.SubData` | app.py:19 | the first `min(index, len(df))` rows, in order (a prefix of the series) |
| `App.NeedsRetrain` | app.py:134-135 | the model is kept only when fewer than `interval` days have passed and the stored params list equals the requested one |
| `App.NeedsReforecast` | app.py:140 | the forecast is kept only when it is for the requested horizon and its length exceeds `index` |
| `App.Launch` | app.py:22-29 | start-up trains a new detector on the first 40 rows with params `["W"]` and horizon 30 |
| `App.UpdateGraphs` | app.py:130-144 | a retrain happens iff `NeedsRetrain`, and then params are the requested ones, the cutoff is the slice's last date and the model is the fit on the slice; otherwise params, cutoff and model are unchanged; without retrain or re-forecast the forecast table is unchanged, and without retrain a passing tick for the same horizon leaves the same table even when it re-forecasts; on success the horizon is the requested one, the forecast table matches it, and the prediction table is the evaluation of the slice on every tick; a failing tick keeps the prediction and forecast tables, and the horizon becomes the requested one only when the failure came from the re-forecast (which stores it before raising) |

## Left out

- Forecasting library internals (fitting, `make_future_dataframe`, `predict`): abstract functions of a `Library` value. The forecast and prediction tables keep only `ds` and `yhat`. The bounds, trend and seasonal columns feed only the charts.
- Charts (`stream_anomaly_plot`, `hist_plot`, `seasonal_components_plot`, `metric_plot`) and the figures `update_graphs` returns: UI rendering.
- The error metrics (`METRICS`, `error`): calls into a metrics library over floats.
- Floating point: values are `real`. The standard deviation is never computed; the threshold test is decided from the variance.
- The mean of an empty slice is 0 where NumPy gives nan. No point is compared against it.
- Series loading, resampling and interpolation, the time-series database plumbing, the Dash layout, timer and server, and the constants module: I/O and UI wiring.
- Attributes that the source creates only in `update_model` (`params`, `model_init_date`, the tables) hold defaults in a new detector: `[]`, day 0, no model, empty tables. The only caller trains right after construction.
- Dash's handling of a callback that raises, which keeps the previous figures, is outside the model. A failing tick returns its `Fail` outcome and keeps the state the source leaves (`UpdateGraphs` states it).
- `self.params = params` keeps a reference to the caller's list. The model stores the list's value.
- The prediction table pairs forecasts with actuals by position. This relies on both frames being indexed 0..n-1 in date order, as slices of the loaded series are.
- Evaluating the same slice twice without a retrain gives the same table. This follows from the methods' ensures, which make the table a function of the model and the slice. It is not stated as a separate lemma.
- Library failures other than the three above are not modelled: a fit that fails on its own data, or `predict` refusing a frame with no rows. `PredictDataframe` on an empty series returns `Pass` with an empty table. No caller reaches that case: `UpdateModel` only predicts on at least two rows, and `UpdateGraphs` stops at an empty slice.
