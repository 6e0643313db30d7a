/** The daily time series the detector is trained on and evaluated against. */
module Series {

  /** A calendar day, as a day number; the difference of two dates is a number of days. */
  type Date = int

  /** One row of the series: the timestamp `ds` and the observed value `y`. */
  datatype Point = Point(ds: Date, y: real)

  /** The `ds` column of a series. */
  function Dates(series: seq<Point>): (r: seq<Date>)
    ensures |r| == |series|
    ensures forall j :: 0 <= j < |series| ==> r[j] == series[j].ds
  {
    seq(|series|, j requires 0 <= j < |series| => series[j].ds)
  }

  /** The `y` column of a series. */
  function Values(series: seq<Point>): (r: seq<real>)
    ensures |r| == |series|
    ensures forall j :: 0 <= j < |series| ==> r[j] == series[j].y
  {
    seq(|series|, j requires 0 <= j < |series| => series[j].y)
  }
}
