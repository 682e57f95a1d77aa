/** The cleaned time series and forecast rows shared by every stage. */
module Series {

  /**
   * One observation: `ds` is a calendar day, counted in days since
   * 1970-01-01 (a Thursday), and `y` its value.
   */
  datatype Obs = Obs(ds: int, y: real)

  /** One forecast row: the day, the point forecast and its band. */
  datatype ForecastPoint = ForecastPoint(ds: int, yhat: real, yhatLower: real, yhatUpper: real)

  /** The `y` column. */
  function Values(data: seq<Obs>): seq<real> {
    seq(|data|, i requires 0 <= i < |data| => data[i].y)
  }

  /** Sort key for ordering observations by date. */
  function DateKey(o: Obs): real {
    o.ds as real
  }

  /** The set of days that occur in a series. */
  function Dates(data: seq<Obs>): set<int> {
    set o | o in data :: o.ds
  }

  /** Days strictly increase along the series: sorted, and no day twice. */
  predicate StrictlyIncreasing(data: seq<Obs>) {
    forall i, j :: 0 <= i < j < |data| ==> data[i].ds < data[j].ds
  }

  /** The earliest day of a non-empty series. */
  function MinDate(data: seq<Obs>): (d: int)
    requires |data| > 0
    ensures d in Dates(data)
    ensures forall o :: o in data ==> d <= o.ds
  {
    if |data| == 1 then data[0].ds
    else
      var m := MinDate(data[1..]);
      assert data == [data[0]] + data[1..];
      if data[0].ds <= m then data[0].ds else m
  }

  /** The latest day of a non-empty series. */
  function MaxDate(data: seq<Obs>): (d: int)
    requires |data| > 0
    ensures d in Dates(data)
    ensures forall o :: o in data ==> o.ds <= d
  {
    if |data| == 1 then data[0].ds
    else
      var m := MaxDate(data[1..]);
      assert data == [data[0]] + data[1..];
      if m <= data[0].ds then data[0].ds else m
  }
}
