/**
 * The forecast endpoint's decision logic: when to fall back from the
 * Prophet model, the fallback linear forecaster itself, and the summary,
 * warnings and diagnostics attached to either kind of response.
 */
module ProphetService {
  import opened Wrappers
  import opened Numerics
  import opened Series

  /** Why the fallback forecaster was used. */
  datatype Reason = ImportError | TooFewRows | FitError

  datatype Warning =
    | FallbackNotice(reason: Reason)   // the fallback notice, carrying its reason
    | ShortData                        // データ量が少ないため、予測期間の短縮を推奨します。

  /** `summaryText`: "-" or the signed 30-day change; `simplified` marks the fallback wording (簡易). */
  datatype Summary = NoSummary | DeltaSummary(plus: bool, pct: real, simplified: bool)

  datatype Diagnostics = Diagnostics(outliers: nat, missing: nat, deduped: nat)

  datatype Response = Response(
    history: seq<Obs>, forecast: seq<ForecastPoint>,
    summary: Summary, warnings: seq<Warning>, diagnostics: Diagnostics)

  /** What the third-party model does when asked; its fit is not part of this model. */
  datatype ProphetOutcome = ImportFailed | FitFailed | Fitted(fc: seq<ForecastPoint>)

  // ---------------------------------------------------------------------
  // The fallback forecaster

  /** `hist_df.tail(30)`: the values of the last (up to) 30 rows. */
  function Recent(data: seq<Obs>): (ys: seq<real>)
    ensures |ys| == if |data| < 30 then |data| else 30
    ensures forall i :: 0 <= i < |ys| ==> ys[i] == data[|data| - |ys| + i].y
  {
    var k := if |data| < 30 then |data| else 30;
    Values(data[|data| - k..])
  }

  /** The polyfit slope of the recent window; a single point fits the flat line through it. */
  function TrendSlope(ys: seq<real>): real {
    if |ys| >= 2 then LeastSquaresSlope(ys) else 0.0
  }

  function TrendIntercept(ys: seq<real>): real {
    if |ys| >= 2 then LeastSquaresIntercept(ys) else if |ys| == 1 then ys[0] else 0.0
  }

  /** `level`: the last observed value, 0 for an empty series. */
  function Level(ys: seq<real>): real {
    if |ys| > 0 then ys[|ys| - 1] else 0.0
  }

  /** What the fitted line misses at each recent point. */
  function Residuals(ys: seq<real>): (rs: seq<real>)
    ensures |rs| == |ys|
  {
    var b, a := TrendSlope(ys), TrendIntercept(ys);
    seq(|ys|, i requires 0 <= i < |ys| => ys[i] - (b * i as real + a))
  }

  /** Whether `sigma` is an admissible band σ: the residuals' sample std above one point. */
  predicate SigmaFits(data: seq<Obs>, sigma: real) {
    |Recent(data)| > 1 ==> IsSampleStd(Residuals(Recent(data)), sigma)
  }

  /** The σ the band is built from: 0 for at most one recent point. */
  function BandSigma(data: seq<Obs>, sigma: real): (s: real)
    requires SigmaFits(data, sigma)
    ensures s >= 0.0
    ensures |Recent(data)| <= 1 ==> s == 0.0
  {
    if |Recent(data)| > 1 then sigma else 0.0
  }

  /** `last_date`: the latest observed day, or today's date for an empty series. */
  function LastDate(data: seq<Obs>, today: int): (d: int)
    ensures |data| > 0 ==> d in Dates(data) && forall o :: o in data ==> o.ds <= d
    ensures |data| == 0 ==> d == today
  {
    if |data| > 0 then MaxDate(data) else today
  }

  function Horizon(horizon: int): (h: nat)
    ensures horizon >= 0 ==> h == horizon
    ensures horizon < 0 ==> h == 0
  {
    if horizon > 0 then horizon else 0
  }

  /** One forecast row: the point forecast with a band of half-width 1.96·σ around it. */
  function BandPoint(day: int, yhat: real, s: real): (p: ForecastPoint)
    requires s >= 0.0
    ensures p.ds == day && p.yhat == yhat
    ensures p.yhatLower <= p.yhat <= p.yhatUpper
    ensures p.yhatUpper - p.yhat == 1.96 * s && p.yhat - p.yhatLower == 1.96 * s
  {
    ForecastPoint(day, yhat, yhat - 1.96 * s, yhat + 1.96 * s)
  }

  /** The fallback forecast: the recent linear trend extended from the last value, one row per day. */
  function FallbackForecast(data: seq<Obs>, horizon: int, sigma: real, today: int): (fc: seq<ForecastPoint>)
    requires SigmaFits(data, sigma)
    ensures |fc| == Horizon(horizon)
    ensures forall i :: 0 <= i < |fc| ==>
      fc[i] == BandPoint(LastDate(data, today) + i + 1,
                         Level(Recent(data)) + TrendSlope(Recent(data)) * (i + 1) as real,
                         BandSigma(data, sigma))
  {
    LinePoints(LastDate(data, today), Level(Recent(data)), TrendSlope(Recent(data)), BandSigma(data, sigma),
               Horizon(horizon))
  }

  /** n daily rows after day `last`, on the line through `level` with the given slope. */
  function LinePoints(last: int, level: real, slope: real, s: real, n: nat): (fc: seq<ForecastPoint>)
    requires s >= 0.0
    ensures |fc| == n
    ensures forall i :: 0 <= i < n ==> fc[i] == BandPoint(last + i + 1, level + slope * (i + 1) as real, s)
  {
    seq(n, i requires 0 <= i < n => LinePoint(last, level, slope, s, i))
  }

  function LinePoint(last: int, level: real, slope: real, s: real, i: nat): (p: ForecastPoint)
    requires s >= 0.0
    ensures p == BandPoint(last + i + 1, level + slope * (i + 1) as real, s)
  {
    BandPoint(last + i + 1, level + slope * (i + 1) as real, s)
  }

  /** Consecutive forecast values differ by exactly the trend slope. */
  lemma FallbackSteps(data: seq<Obs>, horizon: int, sigma: real, today: int, i: nat)
    requires SigmaFits(data, sigma)
    requires i + 1 < Horizon(horizon)
    ensures var fc := FallbackForecast(data, horizon, sigma, today);
      fc[i + 1].yhat - fc[i].yhat == TrendSlope(Recent(data))
      && fc[i + 1].ds == fc[i].ds + 1
  {
    StepOf(TrendSlope(Recent(data)), i + 1);
  }

  // ---------------------------------------------------------------------
  // Summary, warnings and the two kinds of response

  /** `delta_pct`: the change from the latest value to the last forecast, rounded to one decimal. */
  function DeltaPct(data: seq<Obs>, fc: seq<ForecastPoint>): (d: Option<real>)
    ensures d.None? <==> |data| == 0 || |fc| == 0 || data[|data| - 1].y == 0.0
    ensures d.Some? ==>
      var x := PctChange(data[|data| - 1].y, fc[|fc| - 1].yhat);
      x - 0.05 <= d.value <= x + 0.05
  {
    if |data| > 0 && |fc| > 0 && data[|data| - 1].y != 0.0 then
      var x := PctChange(data[|data| - 1].y, fc[|fc| - 1].yhat);
      RoundOneDecimalError(x);
      Some(RoundOneDecimal(x))
    else None
  }

  /** `summaryText`: "-" without a change, else the change with a "+" prefix when it is not negative. */
  function SummaryOf(delta: Option<real>, simplified: bool): (s: Summary)
    ensures s.NoSummary? <==> delta.None?
    ensures s.DeltaSummary? ==> s.pct == delta.value && s.simplified == simplified
    ensures s.DeltaSummary? ==> (s.plus <==> s.pct >= 0.0)
  {
    match delta
    case None => NoSummary
    case Some(d) => DeltaSummary(d >= 0.0, d, simplified)
  }

  /** The short-data warning, present exactly when there are fewer than two rows per forecast day. */
  function ShortDataWarnings(rows: nat, horizon: int): (w: seq<Warning>)
    ensures w == [] || w == [ShortData]
    ensures w == [ShortData] <==> rows < horizon * 2
  {
    if rows < horizon * 2 then [ShortData] else []
  }

  const NoDiagnostics: Diagnostics := Diagnostics(0, 0, 0)

  /** `fallback_response`. */
  function FallbackResponse(data: seq<Obs>, horizon: int, reason: Reason, sigma: real, today: int): (r: Response)
    requires SigmaFits(data, sigma)
    ensures r.history == data
    ensures r.forecast == FallbackForecast(data, horizon, sigma, today)
    ensures r.summary == SummaryOf(DeltaPct(data, r.forecast), true)
    ensures |r.warnings| >= 1 && r.warnings[0] == FallbackNotice(reason)
    ensures r.warnings[1..] == ShortDataWarnings(|data|, horizon)
    ensures r.diagnostics == Diagnostics(0, 0, 0)
  {
    var fc := FallbackForecast(data, horizon, sigma, today);
    Response(data, fc, SummaryOf(DeltaPct(data, fc), true),
             [FallbackNotice(reason)] + ShortDataWarnings(|data|, horizon), NoDiagnostics)
  }

  /** The response built around a fitted model's forecast (history rows followed by future rows). */
  function ProphetResponse(data: seq<Obs>, fc: seq<ForecastPoint>, horizon: int): (r: Response)
    ensures r.history == data && r.forecast == fc
    ensures r.summary == SummaryOf(DeltaPct(data, fc), false)
    ensures r.warnings == ShortDataWarnings(|data|, horizon)
    ensures forall w :: w in r.warnings ==> !w.FallbackNotice?
    ensures r.diagnostics == Diagnostics(0, 0, 0)
  {
    Response(data, fc, SummaryOf(DeltaPct(data, fc), false), ShortDataWarnings(|data|, horizon), NoDiagnostics)
  }

  /** The fallback guard: the model is not fitted on fewer than max(10, horizon) rows. */
  predicate TooFew(rows: nat, horizon: int) {
    rows < (if horizon > 10 then horizon else 10)
  }

  /** The guard `len(df) < max(10, horizon_days)` fails on fewer than ten rows or fewer rows than days asked for. */
  lemma TooFewGuard(rows: nat, horizon: int)
    ensures TooFew(rows, horizon) <==> rows < 10 || rows < horizon
  {
  }

  /**
   * `run_prophet_forecast` on the normalised series: the import is tried
   * first, then the size guard, then the fit; any failure falls back.
   */
  function RunForecast(data: seq<Obs>, horizon: int, prophet: ProphetOutcome, sigma: real, today: int): (r: Response)
    requires SigmaFits(data, sigma)
    ensures prophet.ImportFailed? ==> r == FallbackResponse(data, horizon, ImportError, sigma, today)
    ensures !prophet.ImportFailed? && TooFew(|data|, horizon) ==>
      r == FallbackResponse(data, horizon, TooFewRows, sigma, today)
    ensures prophet.FitFailed? && !TooFew(|data|, horizon) ==>
      r == FallbackResponse(data, horizon, FitError, sigma, today)
    ensures prophet.Fitted? && !TooFew(|data|, horizon) ==> r == ProphetResponse(data, prophet.fc, horizon)
    ensures (|r.warnings| > 0 && r.warnings[0].FallbackNotice?) <==>
      (prophet.ImportFailed? || prophet.FitFailed? || TooFew(|data|, horizon))
    ensures r.diagnostics == Diagnostics(0, 0, 0)
    ensures r.history == data
  {
    if prophet.ImportFailed? then FallbackResponse(data, horizon, ImportError, sigma, today)
    else if TooFew(|data|, horizon) then FallbackResponse(data, horizon, TooFewRows, sigma, today)
    else if prophet.FitFailed? then FallbackResponse(data, horizon, FitError, sigma, today)
    else
      var r := ProphetResponse(data, prophet.fc, horizon);
      assert |r.warnings| > 0 ==> r.warnings[0] in r.warnings;
      r
  }

  // ---------------------------------------------------------------------
  // Properties of the fallback

  lemma ResidualsOnLine(ys: seq<real>, a: real, b: real)
    requires |ys| >= 2 && OnLine(ys, a, b)
    ensures forall i :: 0 <= i < |ys| ==> Residuals(ys)[i] == 0.0
  {
    FitRecoversLine(ys, a, b);
  }

  /**
   * When the recent window lies on a line, the fallback is that line
   * extended from its last point with its own slope and a band of width
   * zero (whose rows LinePointsOnLine describes).
   */
  lemma FallbackContinuesLine(data: seq<Obs>, horizon: int, sigma: real, today: int, a: real, b: real)
    requires SigmaFits(data, sigma)
    requires |Recent(data)| >= 2 && OnLine(Recent(data), a, b)
    ensures FallbackForecast(data, horizon, sigma, today)
         == LinePoints(LastDate(data, today), a + b * (|Recent(data)| - 1) as real, b, 0.0, Horizon(horizon))
  {
    FallbackParamsOnLine(data, sigma, a, b);
  }

  /** Extending point n - 1 of the line a + b·k with slope b and no band stays on the line. */
  lemma LinePointsOnLine(last: int, a: real, b: real, n: nat, h: nat)
    requires n >= 1
    ensures var fc := LinePoints(last, a + b * (n - 1) as real, b, 0.0, h);
      forall i :: 0 <= i < h ==>
        fc[i].yhat == a + b * (n + i) as real && fc[i].yhatLower == fc[i].yhat == fc[i].yhatUpper
  {
    var fc := LinePoints(last, a + b * (n - 1) as real, b, 0.0, h);
    forall i | 0 <= i < h
      ensures fc[i].yhat == a + b * (n + i) as real
    {
      LineContinues(a, b, n - 1, i + 1);
    }
  }

  /** On a line, the fit recovers its slope, the level is its last point and σ is 0. */
  lemma FallbackParamsOnLine(data: seq<Obs>, sigma: real, a: real, b: real)
    requires SigmaFits(data, sigma)
    requires |Recent(data)| >= 2 && OnLine(Recent(data), a, b)
    ensures TrendSlope(Recent(data)) == b
    ensures Level(Recent(data)) == a + b * (|Recent(data)| - 1) as real
    ensures BandSigma(data, sigma) == 0.0
  {
    var ys := Recent(data);
    ResidualsOnLine(ys, a, b);
    SampleStdOfConstant(Residuals(ys), 0.0, sigma);
    FitRecoversLine(ys, a, b);
  }

  /** A flat series of at least two rows yields a flat forecast, bands included. */
  lemma FlatSeriesForecast(data: seq<Obs>, horizon: int, sigma: real, today: int, c: real)
    requires SigmaFits(data, sigma)
    requires |data| >= 2
    requires forall i :: 0 <= i < |data| ==> data[i].y == c
    ensures var fc := FallbackForecast(data, horizon, sigma, today);
      forall i :: 0 <= i < |fc| ==> fc[i].yhat == c && fc[i].yhatLower == c && fc[i].yhatUpper == c
  {
    var ys := Recent(data);
    assert OnLine(ys, c, 0.0);
    FallbackContinuesLine(data, horizon, sigma, today, c, 0.0);
    LinePointsOnLine(LastDate(data, today), c, 0.0, |ys|, Horizon(horizon));
  }

  /** A flat series of at least two rows yields a flat forecast and a "+0.0" summary. */
  lemma FlatSeriesFallback(data: seq<Obs>, horizon: int, reason: Reason, sigma: real, today: int, c: real)
    requires SigmaFits(data, sigma)
    requires |data| >= 2 && c != 0.0 && horizon >= 1
    requires forall i :: 0 <= i < |data| ==> data[i].y == c
    ensures var r := FallbackResponse(data, horizon, reason, sigma, today);
      && (forall i :: 0 <= i < |r.forecast| ==>
            r.forecast[i].yhat == c && r.forecast[i].yhatLower == c && r.forecast[i].yhatUpper == c)
      && r.summary == DeltaSummary(true, 0.0, true)
  {
    FlatSeriesForecast(data, horizon, sigma, today, c);
    var fc := FallbackForecast(data, horizon, sigma, today);
    FlatSummary(data, fc, c);
  }

  /** A forecast that ends where the history ends summarises as "+0.0". */
  lemma FlatSummary(data: seq<Obs>, fc: seq<ForecastPoint>, c: real)
    requires |data| > 0 && |fc| > 0 && c != 0.0
    requires data[|data| - 1].y == c && fc[|fc| - 1].yhat == c
    ensures SummaryOf(DeltaPct(data, fc), true) == DeltaSummary(true, 0.0, true)
  {
    assert PctChange(c, c) == 0.0;
    assert RoundToInt(0.0) == 0;
  }

  /** The summary's "+" prefix appears exactly when the unrounded change is at least -0.05%. */
  lemma SummarySign(data: seq<Obs>, fc: seq<ForecastPoint>, simplified: bool)
    requires |data| > 0 && |fc| > 0 && data[|data| - 1].y != 0.0
    ensures var s := SummaryOf(DeltaPct(data, fc), simplified);
      s.DeltaSummary? && (s.plus <==> PctChange(data[|data| - 1].y, fc[|fc| - 1].yhat) >= -0.05)
  {
    RoundOneDecimalSign(PctChange(data[|data| - 1].y, fc[|fc| - 1].yhat));
  }
}
