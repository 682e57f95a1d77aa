/**
 * The report built from a cleaned series: descriptive profile, trend,
 * weekly seasonality, forecast summary and the scripted narrative.
 */
module Analytics {
  import opened Wrappers
  import opened Sorting
  import opened Numerics
  import opened Series

  // =====================================================================
  // compute_profile

  datatype Profile = Profile(
    rows: nat,
    dateMin: int, dateMax: int,
    mean: real, median: real, min: real, max: real,
    std: real, cv: Option<real>,
    missing: nat, duplicates: nat, outliers: nat)

  /** `np.nanmin` of an empty column raises ValueError. */
  datatype ProfileError = EmptyReduction

  /** The positions of the values strictly below `lower` or strictly above `upper`. */
  function Outside(ys: seq<real>, lower: real, upper: real): set<int> {
    set i | 0 <= i < |ys| && (ys[i] < lower || ys[i] > upper)
  }

  /** Appending a value adds its position when it lies outside. */
  lemma OutsideSnoc(ys: seq<real>, lower: real, upper: real)
    requires ys != []
    ensures var n := |ys| - 1;
      Outside(ys, lower, upper) ==
        Outside(ys[..n], lower, upper) + (if ys[n] < lower || ys[n] > upper then {n} else {})
  {
    var n := |ys| - 1;
    assert forall i :: 0 <= i < n ==> ys[..n][i] == ys[i];
  }

  /** How many values lie strictly below `lower` or strictly above `upper`. */
  function CountOutside(ys: seq<real>, lower: real, upper: real): (k: nat)
    ensures k == |Outside(ys, lower, upper)|
    ensures k <= |ys|
    ensures (forall i :: 0 <= i < |ys| ==> lower <= ys[i] <= upper) ==> k == 0
  {
    if ys == [] then 0
    else
      var n := |ys| - 1;
      OutsideSnoc(ys, lower, upper);
      assert forall i :: 0 <= i < n ==> ys[..n][i] == ys[i];
      if ys[n] < lower || ys[n] > upper then CountOutside(ys[..n], lower, upper) + 1
      else CountOutside(ys[..n], lower, upper)
  }

  /**
   * Tukey's fences: the number of values beyond 1.5 interquartile ranges
   * outside the quartiles; none below 4 rows.
   */
  function OutlierCount(ys: seq<real>): (k: nat)
    ensures k <= |ys|
    ensures |ys| < 4 ==> k == 0
    ensures |ys| >= 4 ==>
      var q1, q3 := Percentile(ys, 25), Percentile(ys, 75);
      k == |Outside(ys, q1 - 1.5 * (q3 - q1), q3 + 1.5 * (q3 - q1))|
  {
    if |ys| < 4 then 0
    else
      var q1, q3 := Percentile(ys, 25), Percentile(ys, 75);
      var iqr := q3 - q1;
      CountOutside(ys, q1 - 1.5 * iqr, q3 + 1.5 * iqr)
  }

  /**
   * `compute_profile`. `sampleStd` is the library's sample standard
   * deviation (ddof = 1) of the values; it is used only above one row.
   */
  function ComputeProfile(data: seq<Obs>, sampleStd: real): (r: Result<Profile, ProfileError>)
    requires |data| > 1 ==> IsSampleStd(Values(data), sampleStd)
    ensures r.Failure? <==> |data| == 0
    ensures r.Success? ==> r.value.rows == |data| && ValuesSummary(Values(data), r.value)
    ensures r.Success? ==> DatesSummary(data, r.value)
    ensures r.Success? ==> SpreadSummary(r.value)
    ensures |data| > 0 ==>
      && r.Success?
      && r.value.mean == Mean(Values(data)) && r.value.median == Median(Values(data))
      && r.value.min == MinOf(Values(data)) && r.value.max == MaxOf(Values(data))
      && r.value.outliers == OutlierCount(Values(data))
      && (|data| > 1 ==> r.value.std == sampleStd)
  {
    if |data| == 0 then Failure(EmptyReduction)
    else
      var ys := Values(data);
      var mean := Mean(ys);
      MeanBounds(ys);
      var std := if |data| > 1 then sampleStd else 0.0;
      var cv := CoefficientOfVariation(std, mean);
      var p := Profile(
        |data|, MinDate(data), MaxDate(data),
        mean, Median(ys), MinOf(ys), MaxOf(ys),
        std, cv,
        0, 0, OutlierCount(ys));
      assert ValuesSummary(ys, p);
      Success(p)
  }

  /** `std / mean`, undefined (None) for a zero mean. */
  function CoefficientOfVariation(std: real, mean: real): (cv: Option<real>)
    ensures cv.None? <==> mean == 0.0
    ensures cv.Some? ==> cv.value * mean == std
  {
    if mean == 0.0 then None
    else
      QuotientTimes(std, mean);
      Some(std / mean)
  }

  /** The location statistics of a profile agree with the values they summarise. */
  predicate ValuesSummary(ys: seq<real>, p: Profile) {
    && p.min in ys && p.max in ys
    && (forall x :: x in ys ==> p.min <= x <= p.max)
    && p.min <= p.median <= p.max
    && p.min <= p.mean <= p.max
    && p.outliers <= |ys|
    && (|ys| < 4 ==> p.outliers == 0)
  }

  /** The date range of a profile is the range of the series' days. */
  predicate DatesSummary(data: seq<Obs>, p: Profile) {
    && p.dateMin in Dates(data) && p.dateMax in Dates(data)
    && (forall o :: o in data ==> p.dateMin <= o.ds <= p.dateMax)
  }

  /** Spread and bookkeeping fields: non-negative std, zero std for one row, cv defined off a zero mean. */
  predicate SpreadSummary(p: Profile) {
    && p.std >= 0.0
    && (p.rows <= 1 ==> p.std == 0.0)
    && p.cv == CoefficientOfVariation(p.std, p.mean)
    && p.missing == 0 && p.duplicates == 0
  }

  /** A constant series: mean, median, min and max are the constant, std and outliers are 0. */
  lemma ProfileOfConstant(data: seq<Obs>, sampleStd: real, c: real)
    requires |data| > 0
    requires |data| > 1 ==> IsSampleStd(Values(data), sampleStd)
    requires forall i :: 0 <= i < |data| ==> data[i].y == c
    ensures ComputeProfile(data, sampleStd).Success?
    ensures var p := ComputeProfile(data, sampleStd).value;
      && p.mean == c && p.median == c && p.min == c && p.max == c
      && p.std == 0.0 && p.outliers == 0
      && (c == 0.0 ==> p.cv.None?)
  {
    var ys := Values(data);
    assert forall i :: 0 <= i < |ys| ==> ys[i] == c;
    var p := ComputeProfile(data, sampleStd).value;
    assert p.min == c && p.max == c;
    MeanConstant(ys, c);
    PercentileConstant(ys, 50, c);
    if |data| > 1 { SampleStdOfConstant(ys, c, sampleStd); }
    OutliersOfConstant(ys, c);
  }

  /** No value of a constant series lies outside its fences. */
  lemma OutliersOfConstant(ys: seq<real>, c: real)
    requires forall i :: 0 <= i < |ys| ==> ys[i] == c
    ensures OutlierCount(ys) == 0
  {
    if |ys| >= 4 {
      PercentileConstant(ys, 25, c);
      PercentileConstant(ys, 75, c);
    }
  }

  // =====================================================================
  // compute_trend

  datatype Trend = Trend(slope30d: real, delta3moPct: Option<real>, changepoints: seq<(int, real)>)

  /** The trailing k values of ys. */
  function Last(ys: seq<real>, k: nat): (r: seq<real>)
    requires k <= |ys|
    ensures |r| == k
    ensures forall i :: 0 <= i < k ==> r[i] == ys[|ys| - k + i]
  {
    ys[|ys| - k..]
  }

  /** The number of points the slope is fitted over: min(30, max(2, n)). */
  function SlopeWindow(n: nat): (w: nat)
    ensures 2 <= w <= 30
    ensures n >= 2 ==> w <= n
    ensures n < 2 ==> w == 2
    ensures 2 <= n <= 30 ==> w == n
    ensures n >= 30 ==> w == 30
  {
    var atLeastTwo := if n < 2 then 2 else n;
    if atLeastTwo < 30 then atLeastTwo else 30
  }

  /** How many rows back the ~3-month comparison looks: min(n - 1, 63), 0 for n <= 1. */
  function Lookback(n: nat): (k: nat)
    ensures k <= 63
    ensures n > 0 ==> k < n
    ensures k == 0 <==> n <= 1
  {
    if n > 1 then (if n - 1 < 63 then n - 1 else 63) else 0
  }

  /** `compute_trend`. */
  function ComputeTrend(data: seq<Obs>): (r: Trend)
    ensures |data| < 2 ==> r.slope30d == 0.0
    ensures |data| >= 2 ==> r.slope30d == LeastSquaresSlope(Last(Values(data), SlopeWindow(|data|)))
    ensures r.changepoints == []
    ensures r.delta3moPct.Some? ==> |data| > 1
    ensures |data| > 1 ==>
      var base := data[if |data| > 64 then |data| - 64 else 0].y;
      && (r.delta3moPct.None? <==> base == 0.0)
      && (r.delta3moPct.Some? ==> r.delta3moPct.value == PctChange(base, data[|data| - 1].y))
  {
    var ys := Values(data);
    var n := |ys|;
    var slope := if n < 2 then 0.0 else LeastSquaresSlope(Last(ys, SlopeWindow(n)));
    var lookback := Lookback(n);
    var delta :=
      if lookback > 0 && ys[n - 1 - lookback] != 0.0
      then Some(PctChange(ys[n - 1 - lookback], ys[n - 1]))
      else None;
    Trend(slope, delta, [])
  }

  /** When the last window of points lies on a line, the reported slope is that line's slope. */
  lemma TrendSlopeOfLine(data: seq<Obs>, a: real, b: real)
    requires |data| >= 2
    requires OnLine(Last(Values(data), SlopeWindow(|data|)), a, b)
    ensures ComputeTrend(data).slope30d == b
  {
    FitRecoversLine(Last(Values(data), SlopeWindow(|data|)), a, b);
  }

  /** Against a positive base, the 3-month change is non-negative exactly when the last value is not below the base. */
  lemma Delta3moSign(data: seq<Obs>)
    requires |data| > 1
    requires data[if |data| > 64 then |data| - 64 else 0].y > 0.0
    ensures ComputeTrend(data).delta3moPct.Some?
    ensures ComputeTrend(data).delta3moPct.value >= 0.0 <==>
      data[|data| - 1].y >= data[if |data| > 64 then |data| - 64 else 0].y
  {
    PctChangeSign(data[if |data| > 64 then |data| - 64 else 0].y, data[|data| - 1].y);
  }

  // =====================================================================
  // compute_seasonality

  /** Day of the week, Monday = 0 (day 0, 1970-01-01, was a Thursday). */
  function Weekday(day: int): (w: int)
    ensures 0 <= w < 7
  {
    (day + 3) % 7
  }

  /** Day 4, 1970-01-05, was a Monday and day 3, 1970-01-04, a Sunday. */
  lemma WeekdayAnchor()
    ensures Weekday(4) == 0 && Weekday(3) == 6
  {
  }

  /** The next day is the next weekday, Sunday wrapping round to Monday. */
  lemma WeekdayNext(day: int)
    ensures Weekday(day + 1) == (Weekday(day) + 1) % 7
  {
    var q := (day + 3) / 7;
    assert day + 3 == 7 * q + Weekday(day);
    if Weekday(day) == 6 {
      assert day + 1 + 3 == 7 * (q + 1);
    } else {
      assert day + 1 + 3 == 7 * q + (Weekday(day) + 1);
    }
  }

  /** Days a week apart fall on the same weekday. */
  lemma WeekdayPeriodic(day: int, k: int)
    ensures Weekday(day + 7 * k) == Weekday(day)
  {
    var q := (day + 3) / 7;
    assert day + 7 * k + 3 == 7 * (q + k) + Weekday(day);
  }

  /** The positions of the rows that fall on weekday w. */
  function RowsOn(data: seq<Obs>, w: int): set<int> {
    set i | 0 <= i < |data| && Weekday(data[i].ds) == w
  }

  /** The positions of the rows on weekday w whose value is x. */
  function RowsOnWith(data: seq<Obs>, w: int, x: real): set<int> {
    set i | 0 <= i < |data| && Weekday(data[i].ds) == w && data[i].y == x
  }

  /** Appending a row adds its position to the sets it belongs to. */
  lemma RowsOnSnoc(data: seq<Obs>, w: int, x: real)
    requires data != []
    ensures var n := |data| - 1;
      RowsOn(data, w) == RowsOn(data[..n], w) + (if Weekday(data[n].ds) == w then {n} else {})
    ensures var n := |data| - 1;
      RowsOnWith(data, w, x) ==
        RowsOnWith(data[..n], w, x) + (if Weekday(data[n].ds) == w && data[n].y == x then {n} else {})
  {
    var n := |data| - 1;
    assert forall i :: 0 <= i < n ==> data[..n][i] == data[i];
  }

  /** The values observed on weekday w, in order: one per row on w. */
  function GroupValues(data: seq<Obs>, w: int): (ys: seq<real>)
    ensures |ys| == |RowsOn(data, w)|
    ensures |ys| <= |data|
  {
    if data == [] then []
    else
      var n := |data| - 1;
      RowsOnSnoc(data, w, 0.0);
      if Weekday(data[n].ds) == w then GroupValues(data[..n], w) + [data[n].y]
      else GroupValues(data[..n], w)
  }

  /** Each value occurs in the group as often as rows on w carry it. */
  lemma {:induction false} GroupValuesMultiplicity(data: seq<Obs>, w: int, x: real)
    ensures multiset(GroupValues(data, w))[x] == |RowsOnWith(data, w, x)|
  {
    if data != [] {
      GroupValuesMultiplicity(data[..|data| - 1], w, x);
      RowsOnSnoc(data, w, x);
    }
  }

  /** The group holds the value of every row on w, and nothing else. */
  lemma GroupValuesMembers(data: seq<Obs>, w: int)
    ensures forall i :: 0 <= i < |data| && Weekday(data[i].ds) == w ==> data[i].y in GroupValues(data, w)
    ensures forall x :: x in GroupValues(data, w) ==>
      exists i :: 0 <= i < |data| && Weekday(data[i].ds) == w && data[i].y == x
  {
    var ys := GroupValues(data, w);
    forall i | 0 <= i < |data| && Weekday(data[i].ds) == w
      ensures data[i].y in ys
    {
      GroupValuesMultiplicity(data, w, data[i].y);
      assert i in RowsOnWith(data, w, data[i].y);
    }
    forall x | x in ys
      ensures exists i :: 0 <= i < |data| && Weekday(data[i].ds) == w && data[i].y == x
    {
      GroupValuesMultiplicity(data, w, x);
      var i :| i in RowsOnWith(data, w, x);
    }
  }

  /** The weekdays that occur in the series. */
  function Weekdays(data: seq<Obs>): set<int> {
    set i | 0 <= i < |data| :: Weekday(data[i].ds)
  }

  /** Some row falls on w exactly when w is one of the series' weekdays. */
  lemma RowsOnOccurs(data: seq<Obs>, w: int)
    ensures |RowsOn(data, w)| > 0 <==> w in Weekdays(data)
  {
    if w in Weekdays(data) {
      var i :| 0 <= i < |data| && Weekday(data[i].ds) == w;
      assert i in RowsOn(data, w);
    }
  }

  /** `groupby('weekday')['y'].mean()` at w; None when w does not occur. */
  function GroupMean(data: seq<Obs>, w: int): (m: Option<real>)
    ensures m.Some? <==> w in Weekdays(data)
  {
    var ys := GroupValues(data, w);
    RowsOnOccurs(data, w);
    if |ys| == 0 then None else Some(Mean(ys))
  }

  /** The mean of the Monday..Friday group means, when all five occur. */
  function WeekdayMean(data: seq<Obs>): (m: Option<real>)
    ensures m.Some? <==> forall w :: 0 <= w < 5 ==> w in Weekdays(data)
  {
    match (GroupMean(data, 0), GroupMean(data, 1), GroupMean(data, 2), GroupMean(data, 3), GroupMean(data, 4))
    case (Some(a), Some(b), Some(c), Some(d), Some(e)) =>
      Some((a + b + c + d + e) / 5.0)
    case _ =>
      assert !(0 in Weekdays(data) && 1 in Weekdays(data) && 2 in Weekdays(data) && 3 in Weekdays(data) && 4 in Weekdays(data));
      None
  }

  /** The mean of the Saturday and Sunday group means, when both occur. */
  function WeekendMean(data: seq<Obs>): (m: Option<real>)
    ensures m.Some? <==> 5 in Weekdays(data) && 6 in Weekdays(data)
  {
    match (GroupMean(data, 5), GroupMean(data, 6))
    case (Some(a), Some(b)) => Some((a + b) / 2.0)
    case _ => None
  }

  /** Weekend against weekdays, in percent; None unless both means exist and are non-zero. */
  function WeekendDeltaPct(data: seq<Obs>): (r: Option<real>)
    ensures r.Some? <==>
      && (forall w :: 0 <= w < 7 ==> w in Weekdays(data))
      && WeekdayMean(data).value != 0.0
      && WeekendMean(data).value != 0.0
    ensures r.Some? ==> r.value == PctChange(WeekdayMean(data).value, WeekendMean(data).value)
  {
    match (WeekdayMean(data), WeekendMean(data))
    case (Some(wd), Some(we)) =>
      if wd != 0.0 && we != 0.0 then Some(PctChange(wd, we)) else None
    case _ => None
  }

  /** All values equal. */
  predicate Constant(xs: seq<real>) {
    forall i :: 0 <= i < |xs| ==> xs[i] == xs[0]
  }

  lemma {:induction false} DotSelfZeroAll(xs: seq<real>)
    ensures Dot(xs, xs) == 0.0 <==> forall i :: 0 <= i < |xs| ==> xs[i] == 0.0
  {
    if xs != [] {
      var n := |xs| - 1;
      var x, front := xs[n], xs[..n];
      DotSelfZeroAll(front);
      DotSelfNonNegative(front);
      var sq := x * x;
      assert Dot(xs, xs) == Dot(front, front) + sq;
      assert forall i :: 0 <= i < n ==> front[i] == xs[i];
      SquareSign(x, sq);
    }
  }

  /** A window's centred values are all zero exactly when the window is constant. */
  lemma CenteredZero(xs: seq<real>)
    requires |xs| > 0
    ensures Dot(Centered(xs), Centered(xs)) == 0.0 <==> Constant(xs)
  {
    var c := Centered(xs);
    DotSelfZeroAll(c);
    assert forall i :: 0 <= i < |xs| ==> c[i] == xs[i] - Mean(xs);
    if Constant(xs) {
      MeanConstant(xs, xs[0]);
      assert forall i :: 0 <= i < |xs| ==> c[i] == 0.0;
    }
    if forall i :: 0 <= i < |c| ==> c[i] == 0.0 {
      assert forall i :: 0 <= i < |xs| ==> xs[i] == Mean(xs);
    }
  }

  lemma NormZero(xs: seq<real>, nrm: real)
    requires IsNorm(xs, nrm)
    ensures nrm == 0.0 <==> Dot(xs, xs) == 0.0
  {
    SquareSign(nrm, nrm * nrm);
  }

  lemma ProductZeroEither(a: real, b: real)
    ensures a * b == 0.0 <==> a == 0.0 || b == 0.0
  {}

  /**
   * The lag-7 autocorrelation: the correlation of the series without its
   * last 7 values with the series without its first 7, each centred.
   * `n0` and `n1` are the library's norms of the two centred windows.
   */
  function Acf7(ys: seq<real>, n0: real, n1: real): (r: Option<real>)
    requires |ys| > 14 ==> IsNorm(Centered(ys[..|ys| - 7]), n0) && IsNorm(Centered(ys[7..]), n1)
    ensures r.Some? ==> |ys| > 14
    ensures r.Some? ==> -1.0 <= r.value <= 1.0
    ensures |ys| > 14 ==> (r.None? <==> Constant(ys[..|ys| - 7]) || Constant(ys[7..]))
  {
    if |ys| > 14 then
      var y0, y1 := Centered(ys[..|ys| - 7]), Centered(ys[7..]);
      var denom := n0 * n1;
      NormZero(y0, n0);
      NormZero(y1, n1);
      CenteredZero(ys[..|ys| - 7]);
      CenteredZero(ys[7..]);
      ProductZeroEither(n0, n1);
      if denom != 0.0 then
        CorrelationBounded(y0, y1, n0, n1);
        Some(Dot(y0, y1) / denom)
      else None
    else None
  }

  /** `label_from_val`: 不明 (Unknown), 強 (Strong), 中 (Medium), 弱 (Weak). */
  datatype Strength = Unknown | Strong | Medium | Weak

  function Abs(x: real): real { if x < 0.0 then -x else x }

  function StrengthLabel(v: Option<real>): (s: Strength)
    ensures s == Unknown <==> v.None?
    ensures s == Strong <==> v.Some? && Abs(v.value) >= 0.5
    ensures s == Medium <==> v.Some? && 0.2 <= Abs(v.value) < 0.5
    ensures s == Weak <==> v.Some? && Abs(v.value) < 0.2
  {
    match v
    case None => Unknown
    case Some(x) =>
      if Abs(x) >= 0.5 then Strong
      else if Abs(x) >= 0.2 then Medium
      else Weak
  }

  /** 0 for an unknown strength, then Weak < Medium < Strong. */
  function StrengthRank(s: Strength): nat {
    match s
    case Unknown => 0
    case Weak => 1
    case Medium => 2
    case Strong => 3
  }

  /** A stronger autocorrelation (in absolute value) never gets a weaker label. */
  lemma StrengthMonotone(a: real, b: real)
    requires Abs(a) <= Abs(b)
    ensures StrengthRank(StrengthLabel(Some(a))) <= StrengthRank(StrengthLabel(Some(b)))
    ensures StrengthLabel(Some(a)) != Unknown
  {}

  datatype Seasonality = Seasonality(weeklyStrength: Strength, weekendDeltaPct: Option<real>, acf7: Option<real>)

  /** `compute_seasonality`; `n0`, `n1` are the norms of the two centred lag-7 windows. */
  function ComputeSeasonality(data: seq<Obs>, n0: real, n1: real): (r: Seasonality)
    requires |data| > 14 ==>
      IsNorm(Centered(Values(data)[..|data| - 7]), n0) && IsNorm(Centered(Values(data)[7..]), n1)
    ensures r.acf7 == Acf7(Values(data), n0, n1)
    ensures r.acf7.Some? ==> |data| > 14 && -1.0 <= r.acf7.value <= 1.0
    ensures r.weeklyStrength == Unknown <==> r.acf7.None?
    ensures r.acf7.Some? ==> r.weeklyStrength == StrengthLabel(r.acf7)
    ensures r.weekendDeltaPct.Some? ==> forall w :: 0 <= w < 7 ==> w in Weekdays(data)
    ensures r.weekendDeltaPct == WeekendDeltaPct(data)
  {
    var acf := Acf7(Values(data), n0, n1);
    Seasonality(StrengthLabel(acf), WeekendDeltaPct(data), acf)
  }

  // =====================================================================
  // summarize_forecast

  /** `conf_from_band`: 不明 (Unknown), 高 (High), 中 (Mid), 低 (Low). */
  datatype Confidence = ConfidenceUnknown | High | Mid | Low

  function ConfidenceFromBand(r: Option<real>): (c: Confidence)
    ensures c == ConfidenceUnknown <==> r.None?
    ensures c == High <==> r.Some? && r.value < 0.1
    ensures c == Mid <==> r.Some? && 0.1 <= r.value < 0.2
    ensures c == Low <==> r.Some? && r.value >= 0.2
  {
    match r
    case None => ConfidenceUnknown
    case Some(x) => if x < 0.1 then High else if x < 0.2 then Mid else Low
  }

  /** 0 for unknown, then Low < Mid < High. */
  function ConfidenceRank(c: Confidence): nat {
    match c
    case ConfidenceUnknown => 0
    case Low => 1
    case Mid => 2
    case High => 3
  }

  /** A wider band never yields a higher confidence. */
  lemma ConfidenceMonotone(a: real, b: real)
    requires a <= b
    ensures ConfidenceRank(ConfidenceFromBand(Some(b))) <= ConfidenceRank(ConfidenceFromBand(Some(a)))
    ensures ConfidenceFromBand(Some(a)) != ConfidenceUnknown
  {}

  /** `fc.tail(h) if len(fc) >= h else fc`; a negative h drops -h rows from the front. */
  function FutureRows(fc: seq<ForecastPoint>, horizon: int): (r: seq<ForecastPoint>)
    ensures horizon >= 0 ==> |r| == if horizon < |fc| then horizon else |fc|
    ensures horizon < 0 ==> |r| == if -horizon < |fc| then |fc| + horizon else 0
    ensures r == fc[|fc| - |r|..]
  {
    if horizon >= 0 then
      if |fc| >= horizon then fc[|fc| - horizon..] else fc
    else
      if -horizon < |fc| then fc[-horizon..] else []
  }

  /** `pick(i)`: the i-th future row, or the last one when there are fewer than i. */
  function Pick(future: seq<ForecastPoint>, i: nat): (r: Option<ForecastPoint>)
    requires i >= 1
    ensures r.None? <==> |future| == 0
    ensures r.Some? && i <= |future| ==> r.value == future[i - 1]
    ensures r.Some? && i > |future| ==> r.value == future[|future| - 1]
  {
    if |future| == 0 then None
    else
      var idx := if i - 1 < |future| - 1 then i - 1 else |future| - 1;
      Some(future[idx])
  }

  /** Band width relative to the point forecast. */
  function Ratio(p: ForecastPoint): (r: real)
    requires p.yhat != 0.0
    ensures r >= 0.0
    ensures Mul(r, Abs(p.yhat)) == Abs(p.yhatUpper - p.yhatLower)
  {
    QuotientSignPositive(Abs(p.yhatUpper - p.yhatLower), Abs(p.yhat));
    QuotientTimes(Abs(p.yhatUpper - p.yhatLower), Abs(p.yhat));
    Abs(p.yhatUpper - p.yhatLower) / Abs(p.yhat)
  }

  /** The positions of the rows with a non-zero point forecast. */
  function Forecasted(future: seq<ForecastPoint>): set<int> {
    set i | 0 <= i < |future| && future[i].yhat != 0.0
  }

  /** The positions of the rows with a non-zero point forecast whose band ratio is x. */
  function RatioAt(future: seq<ForecastPoint>, x: real): set<int> {
    set i | 0 <= i < |future| && future[i].yhat != 0.0 && Ratio(future[i]) == x
  }

  /** Appending a row adds its position to the sets it belongs to. */
  lemma ForecastedSnoc(future: seq<ForecastPoint>, x: real)
    requires future != []
    ensures var n := |future| - 1;
      Forecasted(future) == Forecasted(future[..n]) + (if future[n].yhat != 0.0 then {n} else {})
    ensures var n := |future| - 1;
      RatioAt(future, x) ==
        RatioAt(future[..n], x) + (if future[n].yhat != 0.0 && Ratio(future[n]) == x then {n} else {})
  {
    var n := |future| - 1;
    assert forall i :: 0 <= i < n ==> future[..n][i] == future[i];
  }

  /** Some row has a non-zero forecast exactly when not every forecast is 0. */
  lemma ForecastedEmpty(future: seq<ForecastPoint>)
    ensures |Forecasted(future)| == 0 <==> forall i :: 0 <= i < |future| ==> future[i].yhat == 0.0
  {
    if i :| 0 <= i < |future| && future[i].yhat != 0.0 {
      assert i in Forecasted(future);
    }
  }

  /** |upper - lower| / |yhat| for every row whose yhat is not zero, in order. */
  function BandRatios(future: seq<ForecastPoint>): (rs: seq<real>)
    ensures |rs| == |Forecasted(future)|
    ensures forall x :: x in rs ==> x >= 0.0
  {
    if future == [] then []
    else
      var n := |future| - 1;
      ForecastedSnoc(future, 0.0);
      if future[n].yhat == 0.0 then BandRatios(future[..n])
      else BandRatios(future[..n]) + [Ratio(future[n])]
  }

  /** Each ratio occurs as often as rows with a non-zero forecast have it. */
  lemma {:induction false} BandRatiosMultiplicity(future: seq<ForecastPoint>, x: real)
    ensures multiset(BandRatios(future))[x] == |RatioAt(future, x)|
  {
    if future != [] {
      BandRatiosMultiplicity(future[..|future| - 1], x);
      ForecastedSnoc(future, x);
    }
  }

  /** The ratios are those of the rows with a non-zero forecast, and all of them. */
  lemma BandRatiosMembers(future: seq<ForecastPoint>)
    ensures forall i :: 0 <= i < |future| && future[i].yhat != 0.0 ==> Ratio(future[i]) in BandRatios(future)
    ensures forall x :: x in BandRatios(future) ==>
      exists i :: 0 <= i < |future| && future[i].yhat != 0.0 && Ratio(future[i]) == x
  {
    var rs := BandRatios(future);
    forall i | 0 <= i < |future| && future[i].yhat != 0.0
      ensures Ratio(future[i]) in rs
    {
      BandRatiosMultiplicity(future, Ratio(future[i]));
      assert i in RatioAt(future, Ratio(future[i]));
    }
    forall x | x in rs
      ensures exists i :: 0 <= i < |future| && future[i].yhat != 0.0 && Ratio(future[i]) == x
    {
      BandRatiosMultiplicity(future, x);
      var i :| i in RatioAt(future, x);
    }
  }

  /** The median band ratio; None when no row has a non-zero forecast. */
  function BandRatio(future: seq<ForecastPoint>): (r: Option<real>)
    ensures r.None? <==> forall i :: 0 <= i < |future| ==> future[i].yhat == 0.0
    ensures r.Some? ==>
      |BandRatios(future)| > 0 && 0.0 <= MinOf(BandRatios(future)) <= r.value <= MaxOf(BandRatios(future))
  {
    var rs := BandRatios(future);
    ForecastedEmpty(future);
    if |rs| == 0 then None
    else Some(Median(rs))
  }

  datatype ForecastSummary = ForecastSummary(
    p50_5: Option<real>, lo5: Option<real>, up5: Option<real>,
    p50_30: Option<real>, lo30: Option<real>, up30: Option<real>,
    delta30Pct: Option<real>, bandRatio: Option<real>, confidence: Confidence)

  function Yhat(p: Option<ForecastPoint>): Option<real> {
    match p case None => None case Some(q) => Some(q.yhat)
  }

  function Lower(p: Option<ForecastPoint>): Option<real> {
    match p case None => None case Some(q) => Some(q.yhatLower)
  }

  function Upper(p: Option<ForecastPoint>): Option<real> {
    match p case None => None case Some(q) => Some(q.yhatUpper)
  }

  /** `summarize_forecast(data, fc, horizon_days)`. */
  function SummarizeForecast(data: seq<Obs>, fc: seq<ForecastPoint>, horizon: int): (r: ForecastSummary)
    ensures var future := FutureRows(fc, horizon);
      && (r.p50_5.None? <==> |future| == 0)
      && (r.p50_30.None? <==> |future| == 0)
      && r.p50_5 == Yhat(Pick(future, 5)) && r.lo5 == Lower(Pick(future, 5)) && r.up5 == Upper(Pick(future, 5))
      && r.p50_30 == Yhat(Pick(future, 30)) && r.lo30 == Lower(Pick(future, 30)) && r.up30 == Upper(Pick(future, 30))
      && r.bandRatio == BandRatio(future)
      && (r.bandRatio.None? <==> forall i :: 0 <= i < |future| ==> future[i].yhat == 0.0)
      && (r.bandRatio.Some? ==> r.bandRatio.value >= 0.0)
      && r.confidence == ConfidenceFromBand(r.bandRatio)
    ensures r.delta30Pct.None? <==> |data| == 0 || data[|data| - 1].y == 0.0 || r.p50_30.None?
    ensures r.delta30Pct.Some? ==> r.delta30Pct.value == PctChange(data[|data| - 1].y, r.p50_30.value)
  {
    var future := FutureRows(fc, horizon);
    var at5, at30 := Pick(future, 5), Pick(future, 30);
    var band := BandRatio(future);
    var latest := if |data| > 0 then Some(data[|data| - 1].y) else None;
    var delta :=
      if latest.Some? && latest.value != 0.0 && at30.Some?
      then Some(PctChange(latest.value, at30.value.yhat))
      else None;
    ForecastSummary(
      Yhat(at5), Lower(at5), Upper(at5),
      Yhat(at30), Lower(at30), Upper(at30),
      delta, band, ConfidenceFromBand(band))
  }

  lemma RatioBelow(p: ForecastPoint)
    requires p.yhat != 0.0 && Abs(p.yhatUpper - p.yhatLower) < 0.1 * Abs(p.yhat)
    ensures Ratio(p) < 0.1
  {
    var w, d := Abs(p.yhatUpper - p.yhatLower), Abs(p.yhat);
    var q := w / d;
    assert q * d == w;
    if q >= 0.1 { ScaleLess(0.1, q, d); assert false; }
  }

  /** When every band is narrower than a tenth of its non-zero forecast, every ratio is below 0.1. */
  lemma NarrowRatios(future: seq<ForecastPoint>)
    requires forall p :: p in future ==> p.yhat != 0.0 && Abs(p.yhatUpper - p.yhatLower) < 0.1 * Abs(p.yhat)
    ensures forall x :: x in BandRatios(future) ==> x < 0.1
  {
    BandRatiosMembers(future);
    forall x | x in BandRatios(future)
      ensures x < 0.1
    {
      var i :| 0 <= i < |future| && future[i].yhat != 0.0 && Ratio(future[i]) == x;
      RatioBelow(future[i]);
    }
  }

  /** When every future band is narrower than a tenth of its non-zero forecast, confidence is High. */
  lemma NarrowBandsHighConfidence(data: seq<Obs>, fc: seq<ForecastPoint>, horizon: int)
    requires |FutureRows(fc, horizon)| > 0
    requires forall p :: p in FutureRows(fc, horizon) ==>
      p.yhat != 0.0 && Abs(p.yhatUpper - p.yhatLower) < 0.1 * Abs(p.yhat)
    ensures SummarizeForecast(data, fc, horizon).confidence == High
  {
    var future := FutureRows(fc, horizon);
    assert future[0] in future;
    NarrowRatios(future);
  }

  /** Against a positive latest value, the 30-day change is non-negative exactly when the forecast is not below it. */
  lemma Delta30Sign(data: seq<Obs>, fc: seq<ForecastPoint>, horizon: int)
    requires |data| > 0 && data[|data| - 1].y > 0.0
    requires |FutureRows(fc, horizon)| > 0
    ensures var s := SummarizeForecast(data, fc, horizon);
      s.delta30Pct.Some? && (s.delta30Pct.value >= 0.0 <==> s.p50_30.value >= data[|data| - 1].y)
  {
    var s := SummarizeForecast(data, fc, horizon);
    PctChangeSign(data[|data| - 1].y, s.p50_30.value);
  }

  // =====================================================================
  // generate_explanations: the narrative script and its highlight targets

  /** `distribution_comment`: 比較的対称的な分布 (Symmetric) or やや偏りのある分布 (Skewed). */
  datatype Distribution = Symmetric | Skewed

  /** `variation_level`: 安定的, やや変動が大きい, 変動の大きい. */
  datatype Variation = Stable | SomewhatVolatile | Volatile

  /** `seasonality_comment`: a clear weekly pattern, a weekly variation, or limited seasonality. */
  datatype SeasonalityComment = ClearWeekly(absWeekendPct: real) | WeeklyVariation(weekendPct: real) | Limited

  /** `trend_direction`: 上昇傾向, 下降傾向, 横ばい傾向. */
  datatype TrendDirection = Rising | Falling | Flat

  /** `prediction_reliability`: 高い精度, 中程度の精度, 限定的な精度. */
  datatype Reliability = HighPrecision | MidPrecision | LimitedPrecision

  /** What one beat of the script says, with the figures its text is formatted from. */
  datatype Line =
    | Opening(dateMin: int, dateMax: int, rows: nat)
    | Overview(mean: real, median: real, distribution: Distribution)
    | VariationLine(cv: real, level: Variation)
    | SeasonalityLine(comment: SeasonalityComment)
    | TrendLine(direction: TrendDirection, delta3moPct: real)
    | ForecastLine(p50_30: real, delta30Pct: real)
    | ReliabilityLine(reliability: Reliability)
    | Conclusion

  /** One step of the report-mode narration. */
  datatype Beat = Beat(id: string, line: Line, highlight: seq<string>, waitMs: nat)

  datatype Explanations = Explanations(script: seq<Beat>, targets: map<string, seq<string>>)

  /** Formatting None with a numeric format specifier raises TypeError. */
  datatype ExplainError = FormatNone

  function DistributionOf(mean: real, median: real): (d: Distribution)
    ensures d == Symmetric <==> Abs(mean - median) < 0.1 * (if mean > 1.0 then mean else 1.0)
  {
    var scale := if mean > 1.0 then mean else 1.0;
    QuotientBelow(Abs(mean - median), scale, 0.1);
    if Abs(mean - median) / scale < 0.1 then Symmetric else Skewed
  }

  lemma QuotientBelow(a: real, b: real, c: real)
    requires b > 0.0
    ensures a / b < c <==> a < c * b
  {
    var q := a / b;
    assert q * b == a;
    if q < c { ScaleLess(q, c, b); }
    if c < q { ScaleLess(c, q, b); }
  }

  function VariationOf(cv: real): (v: Variation)
    ensures v == Stable <==> cv < 0.15
    ensures v == Volatile <==> cv >= 0.3
  {
    if cv < 0.15 then Stable else if cv < 0.3 then SomewhatVolatile else Volatile
  }

  function VariationRank(v: Variation): nat {
    match v
    case Stable => 0
    case SomewhatVolatile => 1
    case Volatile => 2
  }

  /** A larger coefficient of variation is never described as more stable. */
  lemma VariationMonotone(a: real, b: real)
    requires a <= b
    ensures VariationRank(VariationOf(a)) <= VariationRank(VariationOf(b))
  {}

  function SeasonalityCommentOf(strength: Strength, weekendPct: real): (c: SeasonalityComment)
    ensures c.ClearWeekly? <==> strength == Strong
    ensures c.WeeklyVariation? <==> strength == Medium
    ensures c.ClearWeekly? ==> c.absWeekendPct >= 0.0 && (c.absWeekendPct == weekendPct || c.absWeekendPct == -weekendPct)
    ensures c.WeeklyVariation? ==> c.weekendPct == weekendPct
  {
    if strength == Strong then ClearWeekly(Abs(weekendPct))
    else if strength == Medium then WeeklyVariation(weekendPct)
    else Limited
  }

  function TrendDirectionOf(delta3mo: real): (d: TrendDirection)
    ensures d == Rising <==> delta3mo > 2.0
    ensures d == Falling <==> delta3mo < -2.0
    ensures d == Flat <==> -2.0 <= delta3mo <= 2.0
  {
    if delta3mo > 2.0 then Rising else if delta3mo < -2.0 then Falling else Flat
  }

  function ReliabilityOf(c: Confidence): (r: Reliability)
    ensures r == HighPrecision <==> c == High
    ensures r == MidPrecision <==> c == Mid
  {
    if c == High then HighPrecision else if c == Mid then MidPrecision else LimitedPrecision
  }

  /** The keys of `targets`, in the order the source lists them. */
  const TargetKeys: seq<string> := [
    "profile.rows", "profile.range", "profile.mean", "profile.median", "profile.std", "profile.cv",
    "seasonality.weekly_strength", "seasonality.weekend_delta_pct",
    "trend.slope_30d", "trend.delta_3mo_pct",
    "forecast.p50_5", "forecast.p50_30", "forecast.delta_30_pct", "forecast.confidence", "forecast.band_ratio"]

  /** The CSS selector of the element that displays a metric. */
  function Selector(key: string): (sel: string)
    ensures |sel| == |key| + 16
    ensures sel[..14] == "[data-metric='" && sel[14..14 + |key|] == key
    ensures sel[14 + |key|..] == "']"
  {
    "[data-metric='" + key + "']"
  }

  /** `targets`: every metric key mapped to the one selector of its element. */
  function Targets(): (t: map<string, seq<string>>)
    ensures t.Keys == set k | k in TargetKeys
    ensures forall k :: k in t ==> t[k] == [Selector(k)]
  {
    map k | k in TargetKeys :: [Selector(k)]
  }

  /** The narration, given the two figures the forecast beat formats. */
  function Script(profile: Profile, trend: Trend, seas: Seasonality, fsum: ForecastSummary,
                  p50_30: real, delta30: real): (s: seq<Beat>)
    ensures |s| == 8
  {
    var cv := profile.cv.GetOr(0.0);
    var weekendPct := seas.weekendDeltaPct.GetOr(0.0);
    var delta3mo := trend.delta3moPct.GetOr(0.0);
    [ Beat("opening", Opening(profile.dateMin, profile.dateMax, profile.rows), ["profile.rows"], 4000),
      Beat("data_overview", Overview(profile.mean, profile.median, DistributionOf(profile.mean, profile.median)),
           ["profile.mean", "profile.median"], 4500),
      Beat("variation_analysis", VariationLine(cv, VariationOf(cv)), ["profile.cv"], 5000),
      Beat("seasonality_analysis", SeasonalityLine(SeasonalityCommentOf(seas.weeklyStrength, weekendPct)),
           ["seasonality.weekly_strength"], 5500),
      Beat("trend_analysis", TrendLine(TrendDirectionOf(delta3mo), delta3mo), ["trend.delta_3mo_pct"], 4500),
      Beat("forecast_results", ForecastLine(p50_30, delta30), ["forecast.p50_30", "forecast.delta_30_pct"], 6000),
      Beat("reliability_assessment", ReliabilityLine(ReliabilityOf(fsum.confidence)), ["forecast.confidence"], 5000),
      Beat("conclusion", Conclusion, [], 5500) ]
  }

  /** The step ids of the narration, in order. */
  const BeatIds: seq<string> := [
    "opening", "data_overview", "variation_analysis", "seasonality_analysis",
    "trend_analysis", "forecast_results", "reliability_assessment", "conclusion"]

  function TotalWait(s: seq<Beat>): nat {
    if s == [] then 0 else s[0].waitMs + TotalWait(s[1..])
  }

  /** Every narration has the eight steps in order. */
  lemma ScriptIds(profile: Profile, trend: Trend, seas: Seasonality, fsum: ForecastSummary, p: real, d: real)
    ensures var s := Script(profile, trend, seas, fsum, p, d);
      forall i :: 0 <= i < 8 ==> s[i].id == BeatIds[i]
  {}

  /** Every step of a narration waits a positive time, 40 seconds in all. */
  lemma ScriptWaits(profile: Profile, trend: Trend, seas: Seasonality, fsum: ForecastSummary, p: real, d: real)
    ensures var s := Script(profile, trend, seas, fsum, p, d);
      && TotalWait(s) == 40000
      && (forall i :: 0 <= i < 8 ==> s[i].waitMs > 0)
  {
    TotalWaitOfEight(Script(profile, trend, seas, fsum, p, d));
  }

  /** The total wait of eight steps is the sum of their eight waits. */
  lemma TotalWaitOfEight(s: seq<Beat>)
    requires |s| == 8
    ensures TotalWait(s) == s[0].waitMs + s[1].waitMs + s[2].waitMs + s[3].waitMs
                          + s[4].waitMs + s[5].waitMs + s[6].waitMs + s[7].waitMs
  {
    assert s[7..][1..] == [];
    assert TotalWait(s[7..]) == s[7].waitMs;
    assert s[6..][1..] == s[7..];
    assert TotalWait(s[6..]) == s[6].waitMs + TotalWait(s[7..]);
    assert s[5..][1..] == s[6..];
    assert TotalWait(s[5..]) == s[5].waitMs + TotalWait(s[6..]);
    assert s[4..][1..] == s[5..];
    assert TotalWait(s[4..]) == s[4].waitMs + TotalWait(s[5..]);
    assert s[3..][1..] == s[4..];
    assert TotalWait(s[3..]) == s[3].waitMs + TotalWait(s[4..]);
    assert s[2..][1..] == s[3..];
    assert TotalWait(s[2..]) == s[2].waitMs + TotalWait(s[3..]);
    assert s[1..][1..] == s[2..];
    assert TotalWait(s[1..]) == s[1].waitMs + TotalWait(s[2..]);
  }

  /** Every highlight of a narration is a target key; the conclusion highlights nothing. */
  lemma ScriptHighlights(profile: Profile, trend: Trend, seas: Seasonality, fsum: ForecastSummary, p: real, d: real)
    ensures var s := Script(profile, trend, seas, fsum, p, d);
      && (forall i, k :: 0 <= i < 8 && k in s[i].highlight ==> k in Targets())
      && s[7].highlight == []
  {}

  /**
   * Every narration: the eight steps in order, each waiting a positive
   * time and 40 seconds in all; every highlight is a target key, the
   * conclusion highlights nothing, and the forecast step narrates the
   * two figures it is given.
   */
  lemma ScriptShape(profile: Profile, trend: Trend, seas: Seasonality, fsum: ForecastSummary, p: real, d: real)
    ensures var s := Script(profile, trend, seas, fsum, p, d);
      && (forall i :: 0 <= i < 8 ==> s[i].id == BeatIds[i])
      && TotalWait(s) == 40000
      && (forall i, k :: 0 <= i < 8 && k in s[i].highlight ==> k in Targets())
      && (forall i :: 0 <= i < 8 ==> s[i].waitMs > 0)
      && s[7].highlight == []
      && s[5].line == ForecastLine(p, d)
  {
    ScriptIds(profile, trend, seas, fsum, p, d);
    ScriptWaits(profile, trend, seas, fsum, p, d);
    ScriptHighlights(profile, trend, seas, fsum, p, d);
  }

  /**
   * `generate_explanations` as written: the forecast beat formats
   * `fsum.get('p50_30', 0)` and `fsum.get('delta_30_pct', 0)` with a
   * numeric format; the default only applies to a missing key, so a
   * present None reaches the format and raises.
   */
  function GenerateExplanationsAsWritten(profile: Profile, trend: Trend, seas: Seasonality, fsum: ForecastSummary)
    : (r: Result<Explanations, ExplainError>)
    ensures r.Failure? <==> fsum.p50_30.None? || fsum.delta30Pct.None?
    ensures r.Success? ==> |r.value.script| == 8 && r.value.script[5].line == ForecastLine(fsum.p50_30.value, fsum.delta30Pct.value)
  {
    match (fsum.p50_30, fsum.delta30Pct)
    case (Some(p), Some(d)) =>
      Success(Explanations(Script(profile, trend, seas, fsum, p, d), Targets()))
    case _ => Failure(FormatNone)
  }

  /** A latest value of zero leaves the 30-day change undefined, which breaks the narration as written. */
  lemma ZeroLatestBreaksNarration(profile: Profile, trend: Trend, seas: Seasonality,
                                  data: seq<Obs>, fc: seq<ForecastPoint>, horizon: int)
    requires |data| > 0 && data[|data| - 1].y == 0.0
    ensures GenerateExplanationsAsWritten(profile, trend, seas, SummarizeForecast(data, fc, horizon)).Failure?
  {}

  /** An empty forecast leaves both figures undefined, which breaks the narration as written. */
  lemma EmptyForecastBreaksNarration(profile: Profile, trend: Trend, seas: Seasonality, data: seq<Obs>)
    ensures GenerateExplanationsAsWritten(profile, trend, seas, SummarizeForecast(data, [], 30)).Failure?
  {}

  /**
   * `generate_explanations` with the default the source evidently
   * intends: an undefined figure is narrated as 0, as every other
   * optional figure already is (`or 0`).
   */
  function GenerateExplanations(profile: Profile, trend: Trend, seas: Seasonality, fsum: ForecastSummary)
    : (r: Explanations)
    ensures |r.script| == 8
    ensures r.script[5].line == ForecastLine(fsum.p50_30.GetOr(0.0), fsum.delta30Pct.GetOr(0.0))
    ensures GenerateExplanationsAsWritten(profile, trend, seas, fsum).Success? ==>
      GenerateExplanationsAsWritten(profile, trend, seas, fsum).value == r
    ensures r.targets == Targets()
  {
    Explanations(Script(profile, trend, seas, fsum, fsum.p50_30.GetOr(0.0), fsum.delta30Pct.GetOr(0.0)), Targets())
  }

  /** The corrected narration highlights only metrics that have a target on the page. */
  lemma HighlightsHaveTargets(profile: Profile, trend: Trend, seas: Seasonality, fsum: ForecastSummary)
    ensures var r := GenerateExplanations(profile, trend, seas, fsum);
      forall i, k :: 0 <= i < |r.script| && k in r.script[i].highlight ==> k in r.targets
  {
    ScriptShape(profile, trend, seas, fsum, fsum.p50_30.GetOr(0.0), fsum.delta30Pct.GetOr(0.0));
  }
}
