/**
 * The anomaly detector (class ADetector): the fitted forecasting model, the
 * configuration that produced it, the forecast table over the horizon, and
 * the prediction table of the slice last evaluated.
 *
 * The forecasting library is not modelled: a fitted model is the value
 * Model(configuration, training series), and the library's point forecast
 * and future-date generation are the two functions of a Library value that
 * the detector is constructed with.
 */
module Detector {
  import opened Series
  import opened Severity

  datatype Option<T> = None | Some(value: T)

  /** Why an operation raised instead of completing. */
  datatype Failure =
    | EmptySeries       // the last row of an empty series was asked for
    | InsufficientData  // the library refuses to fit fewer than MinTrainingRows rows
    | NotFitted         // the library was asked to forecast before a successful fit

  datatype Outcome = Pass | Fail(failure: Failure)

  /** The seasonality the model is built with: explicit flags, or the library's own defaults. */
  datatype ModelConfig = Custom(daily: bool, weekly: bool, yearly: bool) | LibraryDefault

  /** A fitted model: the configuration it was built with and the series it was fitted on. */
  datatype Model = Model(config: ModelConfig, training: seq<Point>)

  /** The forecasting library: a model's point forecast at a date, and its future dates for a horizon. */
  datatype Library = Library(predict: (Model, Date) -> real, futureDates: (Model, nat) -> seq<Date>)

  datatype ForecastRow = ForecastRow(ds: Date, yhat: real)

  /** The prediction table, column by column, as the data frame holds it. */
  datatype PredictFrame = PredictFrame(
    ds: seq<Date>, y: seq<real>, yhat: seq<real>, residuals: seq<real>, anomaly: seq<bool>, impact: seq<int>)
  {
    predicate Aligned()
    {
      |y| == |ds| && |yhat| == |ds| && |residuals| == |ds| && |anomaly| == |ds| && |impact| == |ds|
    }
  }

  /** The lifecycle fields of the detector, as one value. */
  datatype Lifecycle = Lifecycle(
    params: seq<string>, modelInitDate: Date, period: nat, model: Option<Model>, forecast: seq<ForecastRow>)

  /** The horizon a new detector forecasts over. */
  const DefaultPeriod: nat := 30

  /** The fewest rows the library fits a model on. */
  const MinTrainingRows: nat := 2

  const EmptyFrame := PredictFrame([], [], [], [], [], [])

  /** The seasonality selected by a parameter list: "D" daily, "W" weekly, "Y" yearly; none of them selects the defaults. */
  function ConfigFor(params: seq<string>): (c: ModelConfig)
    ensures c.LibraryDefault? <==> "D" !in params && "W" !in params && "Y" !in params
    ensures c.Custom? ==> c.daily == ("D" in params) && c.weekly == ("W" in params) && c.yearly == ("Y" in params)
  {
    var daily, weekly, yearly := "D" in params, "W" in params, "Y" in params;
    if daily || weekly || yearly then Custom(daily, weekly, yearly) else LibraryDefault
  }

  /** The model a fit on `df` with `params` yields. */
  function FittedModel(params: seq<string>, df: seq<Point>): (m: Model)
    ensures m.training == df
    ensures m.config.LibraryDefault? <==> "D" !in params && "W" !in params && "Y" !in params
    ensures m.config.Custom? ==>
      m.config.daily == ("D" in params) && m.config.weekly == ("W" in params) && m.config.yearly == ("Y" in params)
  {
    Model(ConfigFor(params), df)
  }

  /** The forecast table over the model's future dates for a horizon of `period` days. */
  function ForecastTable(lib: Library, m: Model, period: nat): (table: seq<ForecastRow>)
    ensures |table| == |lib.futureDates(m, period)|
    ensures forall i :: 0 <= i < |table| ==>
      table[i].ds == lib.futureDates(m, period)[i] && table[i].yhat == lib.predict(m, table[i].ds)
  {
    var dates := lib.futureDates(m, period);
    seq(|dates|, i requires 0 <= i < |dates| => ForecastRow(dates[i], lib.predict(m, dates[i])))
  }

  /** The model's point forecasts at the series' dates. */
  function Forecasts(lib: Library, m: Model, series: seq<Point>): (yhat: seq<real>)
    ensures |yhat| == |series|
    ensures forall j :: 0 <= j < |series| ==> yhat[j] == lib.predict(m, series[j].ds)
  {
    seq(|series|, j requires 0 <= j < |series| => lib.predict(m, series[j].ds))
  }

  function Residuals(y: seq<real>, yhat: seq<real>): (r: seq<real>)
    requires |yhat| == |y|
    ensures |r| == |y|
    ensures forall j :: 0 <= j < |y| ==> r[j] == y[j] - yhat[j]
  {
    seq(|y|, j requires 0 <= j < |y| => y[j] - yhat[j])
  }

  function Abs(x: real): real
  {
    if x < 0.0 then -x else x
  }

  function Errors(residuals: seq<real>): (e: seq<real>)
    ensures |e| == |residuals|
    ensures forall j :: 0 <= j < |e| ==> e[j] >= 0.0 && (e[j] == residuals[j] || e[j] == -residuals[j])
  {
    seq(|residuals|, j requires 0 <= j < |residuals| => Abs(residuals[j]))
  }

  /** The table classify_anomaly leaves, given the dates, actuals and forecasts. */
  function Classified(ds: seq<Date>, y: seq<real>, yhat: seq<real>, stds: seq<real>): (f: PredictFrame)
    requires |y| == |ds| && |yhat| == |ds|
    ensures f.Aligned() && f.ds == ds && f.y == y && f.yhat == yhat
    ensures forall j :: 0 <= j < |ds| ==>
      f.residuals[j] == y[j] - yhat[j] && 0 <= f.impact[j] <= |stds| && f.anomaly[j] == (f.impact[j] > 0)
  {
    var residuals := Residuals(y, yhat);
    var errors := Errors(residuals);
    var mean, variance := Mean(errors), PopVariance(errors);
    var impact := seq(|ds|, j requires 0 <= j < |ds| => Tier(errors[j], mean, variance, stds) as int);
    PredictFrame(ds, y, yhat, residuals, seq(|ds|, j requires 0 <= j < |ds| => impact[j] > 0), impact)
  }

  /**
   * Point j's impact is the largest i+1 whose threshold `mean + std * stds[i]`
   * its error |y - yhat| exceeds, with mean and std taken over the errors of
   * every point of the table, flagged or not; 0 when it exceeds none.
   */
  lemma ClassifiedTierIsLargestThreshold(ds: seq<Date>, y: seq<real>, yhat: seq<real>, stds: seq<real>, std: real, j: int)
    requires |y| == |ds| && |yhat| == |ds| && 0 <= j < |ds|
    requires IsPopStd(std, Errors(Residuals(y, yhat)))
    ensures var f := Classified(ds, y, yhat, stds);
      var errors := Errors(Residuals(y, yhat));
      var t := f.impact[j];
      errors[j] == Abs(y[j] - yhat[j]) &&
      (f.anomaly[j] <==> exists i :: 0 <= i < |stds| && AboveThreshold(errors[j], Mean(errors), std, stds[i])) &&
      (t > 0 ==> AboveThreshold(errors[j], Mean(errors), std, stds[t - 1])) &&
      (forall i :: t <= i < |stds| ==> !AboveThreshold(errors[j], Mean(errors), std, stds[i]))
  {
    var errors := Errors(Residuals(y, yhat));
    TierIsLargestExceeded(errors[j], Mean(errors), std, stds);
    AnomalousIffSomeThresholdExceeded(errors[j], Mean(errors), std, stds);
  }

  /**
   * When the errors of the table have zero variance, each of them is the
   * mean, so no point lies above any threshold: nothing is flagged.
   */
  lemma ClassifiedWithNoSpreadFlagsNothing(ds: seq<Date>, y: seq<real>, yhat: seq<real>, stds: seq<real>)
    requires |y| == |ds| && |yhat| == |ds|
    requires PopVariance(Errors(Residuals(y, yhat))) == 0.0
    ensures var f := Classified(ds, y, yhat, stds);
      forall j :: 0 <= j < |ds| ==> f.impact[j] == 0 && !f.anomaly[j]
  {
    var errors := Errors(Residuals(y, yhat));
    var f := Classified(ds, y, yhat, stds);
    NoSpreadMeansAllAtMean(errors);
    forall j | 0 <= j < |ds|
      ensures f.impact[j] == 0
    {
      TierWithZeroVariance(errors[j], Mean(errors), stds);
    }
  }

  /** The prediction table predict_dataframe builds for `series` with model `m`. */
  function Evaluate(lib: Library, m: Model, series: seq<Point>, stds: seq<real>): (f: PredictFrame)
    ensures f.Aligned() && |f.ds| == |series|
    ensures forall j :: 0 <= j < |series| ==>
      f.ds[j] == series[j].ds && f.y[j] == series[j].y && f.yhat[j] == lib.predict(m, series[j].ds) &&
      f.residuals[j] == series[j].y - lib.predict(m, series[j].ds)
  {
    Classified(Dates(series), Values(series), Forecasts(lib, m, series), stds)
  }

  class ADetector {
    const name: string
    const lib: Library

    var params: seq<string>
    var modelInitDate: Date
    var period: nat
    var model: Option<Model>
    var forecast: seq<ForecastRow>

    // columns of the prediction table
    var predDs: seq<Date>
    var predY: seq<real>
    var predYhat: seq<real>
    var residuals: seq<real>
    var anomaly: array<bool>
    var impact: array<int>

    function State(): Lifecycle
      reads this
    {
      Lifecycle(params, modelInitDate, period, model, forecast)
    }

    function Table(): PredictFrame
      reads this, anomaly, impact
    {
      PredictFrame(predDs, predY, predYhat, residuals, anomaly[..], impact[..])
    }

    /** A model, when there is one, was fitted on enough rows, the last of them dated modelInitDate. */
    ghost predicate ModelFitted()
      reads this
    {
      model.Some? ==>
        |model.value.training| >= MinTrainingRows &&
        modelInitDate == model.value.training[|model.value.training| - 1].ds
    }

    /** The forecast table belongs to the current model and horizon. */
    ghost predicate ForecastCurrent()
      reads this
    {
      model.Some? ==> forecast == ForecastTable(lib, model.value, period)
    }

    ghost predicate Valid()
      reads this, anomaly, impact
    {
      ModelFitted() && ForecastCurrent() && Table().Aligned()
    }

    constructor (name: string, lib: Library)
      ensures Valid()
      ensures this.name == name && this.lib == lib
      ensures State() == Lifecycle([], 0, DefaultPeriod, None, [])
      ensures Table() == EmptyFrame
    {
      this.name := name;
      this.lib := lib;
      params := [];
      modelInitDate := 0;
      period := DefaultPeriod;
      model := None;
      forecast := [];
      predDs, predY, predYhat, residuals := [], [], [], [];
      anomaly := new bool[0];
      impact := new int[0];
    }

    /**
     * Record the parameters, take the series' last date as the training
     * cutoff, fit a new model on the series, then rebuild the forecast table
     * over the current horizon and the prediction table over the series.
     * The fields are set in the source's order, so a failure leaves the ones
     * set before it.
     */
    method UpdateModel(df: seq<Point>, params: seq<string>) returns (r: Outcome)
      requires Valid()
      modifies this
      ensures Valid()
      ensures r == if |df| == 0 then Fail(EmptySeries) else if |df| < MinTrainingRows then Fail(InsufficientData) else Pass
      ensures |df| == 0 ==> State() == old(State()).(params := params) && Table() == old(Table())
      ensures 0 < |df| < MinTrainingRows ==>
        State() == old(State()).(params := params, modelInitDate := df[|df| - 1].ds, model := None) &&
        Table() == old(Table())
      ensures r.Pass? ==>
        var m := FittedModel(params, df);
        State() == Lifecycle(params, df[|df| - 1].ds, old(period), Some(m), ForecastTable(lib, m, old(period))) &&
        Table() == Evaluate(lib, m, df, DefaultStds)
    {
      this.params := params;
      if |df| == 0 {
        return Fail(EmptySeries);
      }
      modelInitDate := df[|df| - 1].ds;
      if |df| < MinTrainingRows {
        model := None;
        return Fail(InsufficientData);
      }
      model := Some(FittedModel(params, df));
      r := FutureDataframe(period);
      r := PredictDataframe(df);
    }

    /** Store the horizon and rebuild the forecast table over it. */
    method FutureDataframe(p: nat) returns (r: Outcome)
      requires ModelFitted() && Table().Aligned()
      modifies this
      ensures Valid()
      ensures r == if model.Some? then Pass else Fail(NotFitted)
      ensures State() == old(State()).(
        period := p,
        forecast := if old(model).Some? then ForecastTable(lib, old(model).value, p) else old(forecast))
      ensures Table() == old(Table())
    {
      period := p;
      if model.None? {
        return Fail(NotFitted);
      }
      forecast := ForecastTable(lib, model.value, period);
      r := Pass;
    }

    /** Rebuild the prediction table over `series` and classify it with the default multipliers. */
    method PredictDataframe(series: seq<Point>) returns (r: Outcome)
      requires Valid()
      modifies this
      ensures Valid()
      ensures r == if model.Some? then Pass else Fail(NotFitted)
      ensures State() == old(State())
      ensures r.Pass? ==> Table() == Evaluate(lib, model.value, series, DefaultStds)
      ensures r.Fail? ==> Table() == old(Table())
    {
      if model.None? {
        return Fail(NotFitted);
      }
      predDs := Dates(series);
      predYhat := Forecasts(lib, model.value, series);
      predY := Values(series);
      ClassifyAnomaly(DefaultStds);
      r := Pass;
    }

    /**
     * Fill the residual column and, from the errors, the anomaly and impact
     * columns, with the multipliers `stds`.
     */
    method ClassifyAnomaly(stds: seq<real>)
      requires |predY| == |predDs| && |predYhat| == |predDs|
      modifies this
      ensures State() == old(State())
      ensures Table() == Classified(old(predDs), old(predY), old(predYhat), stds)
      ensures fresh(anomaly) && fresh(impact)
    {
      residuals := Residuals(predY, predYhat);
      var errors := Errors(residuals);
      anomaly, impact := ClassifyErrors(errors, stds);
      ghost var f := Classified(predDs, predY, predYhat, stds);
      assert anomaly[..] == f.anomaly;
      assert impact[..] == f.impact;
    }
  }
}
