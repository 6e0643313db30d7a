/**
 * The dashboard's refresh cycle around the detector: the slice of the loaded
 * series shown so far, the start-up training, and on every timer tick the
 * retrain, re-forecast and re-predict decisions of update_graphs.
 */
module App {
  import opened Series
  import opened Severity
  import opened Detector

  /** The number of rows the detector is first trained on. */
  const InitialSample: nat := 40

  /** The seasonality parameters the dashboard starts with: weekly. */
  const InitialParams: seq<string> := ["W"]

  const DetectorName: string := "TRW1MT (C)"

  /** The first `index` rows of the series, or all of them when it has fewer. */
  function SubData(df: seq<Point>, index: nat): (r: seq<Point>)
    ensures |r| == if index <= |df| then index else |df|
    ensures r <= df
  {
    if index <= |df| then df[..index] else df
  }

  /**
   * Retrain when at least `interval` days have passed since the training
   * cutoff, or when the requested parameter list differs from the stored one
   * (element by element, in order). A model is reused only when neither holds.
   */
  function NeedsRetrain(days: int, interval: int, stored: seq<string>, requested: seq<string>): (b: bool)
    ensures !b ==> days < interval && stored == requested
  {
    days >= interval || stored != requested
  }

  /**
   * Re-forecast when the requested horizon differs from the stored one, or
   * when the slice end has reached the end of the forecast table. The table
   * is kept only when it is for the requested horizon and reaches past `index`.
   */
  function NeedsReforecast(storedPeriod: nat, requestedPeriod: nat, index: nat, forecastLength: nat): (b: bool)
    ensures !b ==> storedPeriod == requestedPeriod && index < forecastLength
  {
    storedPeriod != requestedPeriod || index >= forecastLength
  }

  /** Start-up: a detector trained on the first InitialSample rows with the initial parameters. */
  method Launch(data: seq<Point>, lib: Library) returns (detector: ADetector, r: Outcome)
    ensures fresh(detector) && detector.Valid()
    ensures detector.name == DetectorName && detector.lib == lib
    ensures var sub := SubData(data, InitialSample);
      r == (if |sub| == 0 then Fail(EmptySeries) else if |sub| < MinTrainingRows then Fail(InsufficientData) else Pass) &&
      detector.params == InitialParams && detector.period == DefaultPeriod &&
      (r.Pass? ==>
        detector.model == Some(FittedModel(InitialParams, sub)) &&
        detector.modelInitDate == sub[|sub| - 1].ds &&
        detector.Table() == Evaluate(lib, FittedModel(InitialParams, sub), sub, DefaultStds))
  {
    var dataUpdated := SubData(data, InitialSample);
    detector := new ADetector(DetectorName, lib);
    r := detector.UpdateModel(dataUpdated, InitialParams);
  }

  /**
   * One timer tick: evaluate the first `index` rows of `data`. Retrain when
   * NeedsRetrain says so and reset the cutoff to the slice's last date; then
   * re-forecast when NeedsReforecast says so; then always rebuild and
   * reclassify the prediction table over the slice. A failure of any step
   * ends the tick with that failure.
   */
  method UpdateGraphs(detector: ADetector, data: seq<Point>, index: nat, period: nat, params: seq<string>, interval: int)
    returns (r: Outcome)
    requires detector.Valid()
    modifies detector
    ensures detector.Valid()
    ensures var sub := SubData(data, index);
      |sub| == 0 ==>
        r == Fail(EmptySeries) &&
        detector.State() == old(detector.State()) && detector.Table() == old(detector.Table())
    ensures var sub := SubData(data, index);
      |sub| > 0 ==>
        var last := sub[|sub| - 1].ds;
        var retrain := NeedsRetrain(last - old(detector.modelInitDate), interval, old(detector.params), params);
        (retrain ==>
          detector.params == params && detector.modelInitDate == last &&
          detector.model == (if |sub| < MinTrainingRows then None else Some(FittedModel(params, sub)))) &&
        (!retrain ==>
          detector.params == old(detector.params) && detector.modelInitDate == old(detector.modelInitDate) &&
          detector.model == old(detector.model)) &&
        (!retrain && period == old(detector.period) && r.Pass? ==>
          detector.forecast == old(detector.forecast)) &&
        (!retrain && !NeedsReforecast(old(detector.period), period, index, |old(detector.forecast)|) ==>
          detector.period == old(detector.period) && detector.forecast == old(detector.forecast)) &&
        (r.Pass? <==> if retrain then |sub| >= MinTrainingRows else old(detector.model).Some?) &&
        (r.Fail? ==>
          detector.Table() == old(detector.Table()) && detector.forecast == old(detector.forecast) &&
          detector.period ==
            (if !retrain && NeedsReforecast(old(detector.period), period, index, |old(detector.forecast)|)
             then period else old(detector.period))) &&
        (r.Pass? ==>
          detector.period == period &&
          detector.forecast == ForecastTable(detector.lib, detector.model.value, period) &&
          detector.Table() == Evaluate(detector.lib, detector.model.value, sub, DefaultStds))
  {
    var dataUpdated := SubData(data, index);
    if |dataUpdated| == 0 {
      return Fail(EmptySeries);
    }
    var last := dataUpdated[|dataUpdated| - 1].ds;

    var days := last - detector.modelInitDate;
    if NeedsRetrain(days, interval, detector.params, params) {
      r := detector.UpdateModel(dataUpdated, params);
      if r.Fail? {
        return;
      }
      // already the cutoff UpdateModel recorded
      ghost var state, table := detector.State(), detector.Table();
      assert state.modelInitDate == last;
      detector.modelInitDate := last;
      assert detector.State() == state && detector.Table() == table;
    }

    if NeedsReforecast(detector.period, period, index, |detector.forecast|) {
      r := detector.FutureDataframe(period);
      if r.Fail? {
        return;
      }
    }

    r := detector.PredictDataframe(dataUpdated);
  }
}
