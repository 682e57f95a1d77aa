/**
 * The offline utility that turns a Date/Close price table into a full
 * Open/High/Low/Close/Volume table. The random draws are inputs.
 */
module MakeFull {
  import opened Wrappers
  import opened Sorting
  import opened Numerics

  /** One input row: the trading day and its closing price. */
  datatype Quote = Quote(date: int, close: real)

  /** One row's random draws: the open gap, the high and low spread samples, and the volume noise. */
  datatype Draw = Draw(gap: real, highSample: real, lowSample: real, volumeNoise: real)

  /**
   * One output row. The volume is None where the level divides by a zero
   * mean close (the library yields inf or NaN, whose integer cast is undefined).
   */
  datatype Bar = Bar(date: int, open: real, high: real, low: real, close: real, volume: Option<int>)

  datatype FullTable = FullTable(columns: seq<string>, bars: seq<Bar>)

  /** `ValueError('Input CSV must contain Date and Close columns')`. */
  datatype MakeFullError = MissingColumns

  const FullColumns: seq<string> := ["Date", "Open", "High", "Low", "Close", "Volume"]

  function Abs(x: real): (r: real)
    ensures r >= 0.0 && (r == x || r == -x)
  {
    if x < 0.0 then -x else x
  }

  function Max(a: real, b: real): (m: real)
    ensures m >= a && m >= b && (m == a || m == b)
  {
    if a >= b then a else b
  }

  function Min(a: real, b: real): (m: real)
    ensures m <= a && m <= b && (m == a || m == b)
  {
    if a <= b then a else b
  }

  /** `astype(int)`: truncation toward zero. */
  function Truncate(x: real): (n: int)
    ensures x >= 0.0 ==> 0 <= n && n as real <= x < n as real + 1.0
    ensures x < 0.0 ==> n <= 0 && n as real - 1.0 < x <= n as real
  {
    if x >= 0.0 then x.Floor else -((-x).Floor)
  }

  function DateOf(q: Quote): real {
    q.date as real
  }

  function Closes(qs: seq<Quote>): (cs: seq<real>)
    ensures |cs| == |qs|
    ensures forall i :: 0 <= i < |qs| ==> cs[i] == qs[i].close
  {
    seq(|qs|, i requires 0 <= i < |qs| => qs[i].close)
  }

  /** `prev_close`: the previous row's close, and the row's own close for the first row. */
  function PrevClose(qs: seq<Quote>, i: nat): (c: real)
    requires i < |qs|
    ensures i > 0 ==> c == qs[i - 1].close
    ensures i == 0 ==> c == qs[0].close
  {
    if i == 0 then qs[0].close else qs[i - 1].close
  }

  /** `open_px`, `high_px` and `low_px` before rounding. */
  function RawOpen(qs: seq<Quote>, draws: seq<Draw>, i: nat): (o: real)
    requires i < |qs| && |draws| == |qs|
    ensures i == 0 ==> o == qs[0].close + draws[0].gap
    ensures i > 0 ==> o == qs[i - 1].close + draws[i].gap
  {
    PrevClose(qs, i) + draws[i].gap
  }

  function RawHigh(o: real, c: real, d: Draw): (h: real)
    ensures h >= o && h >= c
  {
    Max(o, c) + Abs(d.highSample)
  }

  function RawLow(o: real, c: real, d: Draw): (l: real)
    ensures l <= o && l <= c
  {
    Min(o, c) - Abs(d.lowSample)
  }

  /** `vol`: a million shares times the level (close over mean close, at least 1), with noise, truncated. */
  function Volume(close: real, meanClose: real, noise: real): (v: Option<int>)
    ensures v.None? <==> meanClose == 0.0
  {
    if meanClose == 0.0 then None
    else
      var level := Max(1.0, close / meanClose);
      Some(Truncate(level * 1000000.0 * (1.0 + noise)))
  }

  /** One output row, as built before the final clamp. */
  function Unclamped(qs: seq<Quote>, draws: seq<Draw>, meanClose: real, i: nat): (b: Bar)
    requires i < |qs| && |draws| == |qs|
    ensures b.date == qs[i].date
    ensures b.close == RoundTwoDecimals(qs[i].close)
    ensures b.open == RoundTwoDecimals(RawOpen(qs, draws, i))
  {
    var o, c := RawOpen(qs, draws, i), qs[i].close;
    var h := RawHigh(o, c, draws[i]);
    var l := RawLow(o, c, draws[i]);
    Bar(qs[i].date,
        RoundTwoDecimals(o),
        RoundTwoDecimals(Max(Max(h, o), c)),
        RoundTwoDecimals(Min(Min(l, o), c)),
        RoundTwoDecimals(c),
        Volume(c, meanClose, draws[i].volumeNoise))
  }

  /** Lines 46-47: High raised to at least Open and Close, Low lowered to at most both. */
  function Clamp(b: Bar): (r: Bar)
    ensures r.high >= r.open && r.high >= r.close
    ensures r.low <= r.open && r.low <= r.close
    ensures r.low <= r.high
    ensures r.date == b.date && r.open == b.open && r.close == b.close && r.volume == b.volume
    ensures r.high == b.high || r.high == b.open || r.high == b.close
    ensures r.low == b.low || r.low == b.open || r.low == b.close
  {
    b.(high := Max(Max(b.high, b.open), b.close), low := Min(Min(b.low, b.open), b.close))
  }

  /** The mean close, 0 for an empty table. */
  function MeanClose(qs: seq<Quote>): (m: real)
    ensures |qs| > 0 ==> MinOf(Closes(qs)) <= m <= MaxOf(Closes(qs))
    ensures |qs| == 0 ==> m == 0.0
  {
    if |qs| == 0 then 0.0
    else
      MeanBounds(Closes(qs));
      Mean(Closes(qs))
  }

  /** The full rows of a date-sorted table. */
  function Bars(qs: seq<Quote>, draws: seq<Draw>): (bs: seq<Bar>)
    requires |draws| == |qs|
    ensures |bs| == |qs|
    ensures forall i :: 0 <= i < |qs| ==> bs[i] == Clamp(Unclamped(qs, draws, MeanClose(qs), i))
    ensures BarsFrom(qs, draws, bs)
  {
    var m := MeanClose(qs);
    var bs := seq(|qs|, i requires 0 <= i < |qs| => Clamp(Unclamped(qs, draws, m, i)));
    assert forall i :: 0 <= i < |qs| ==> WellFormed(bs[i]) by {
      forall i | 0 <= i < |qs| ensures WellFormed(bs[i]) {
        ClampWellFormed(Unclamped(qs, draws, m, i));
      }
    }
    bs
  }

  /**
   * Row i of bs is built from row i of qs: same day, close and open
   * (previous close plus gap) rounded to cents, and Low <= Open, Close <= High.
   */
  predicate BarsFrom(qs: seq<Quote>, draws: seq<Draw>, bs: seq<Bar>)
    requires |draws| == |qs|
  {
    && |bs| == |qs|
    && forall i :: 0 <= i < |qs| ==>
      && bs[i].date == qs[i].date
      && bs[i].close == RoundTwoDecimals(qs[i].close)
      && bs[i].open == RoundTwoDecimals(RawOpen(qs, draws, i))
      && WellFormed(bs[i])
  }

  lemma ClampWellFormed(b: Bar)
    ensures WellFormed(Clamp(b))
  {}

  /** `make_full`: the draws are taken in the sorted row order, as the generator produces them. */
  function MakeFull(columns: seq<string>, rows: seq<Quote>, draws: seq<Draw>): (r: Result<FullTable, MakeFullError>)
    requires |draws| == |rows|
    ensures r.Failure? <==> "Date" !in columns || "Close" !in columns
    ensures r.Success? ==>
      var sorted := SortBy(rows, DateOf);
      && r.value.columns == FullColumns
      && |r.value.bars| == |rows|
      && multiset(sorted) == multiset(rows)
      && (forall i, j :: 0 <= i < j < |rows| ==> r.value.bars[i].date <= r.value.bars[j].date)
      && BarsFrom(sorted, draws, r.value.bars)
  {
    if "Date" !in columns || "Close" !in columns then Failure(MissingColumns)
    else
      var sorted := SortBy(rows, DateOf);
      var bs := Bars(sorted, draws);
      assert forall i, j :: 0 <= i < j < |rows| ==> bs[i].date <= bs[j].date by {
        forall i, j | 0 <= i < j < |rows| ensures bs[i].date <= bs[j].date {
          assert DateOf(sorted[i]) <= DateOf(sorted[j]);
        }
      }
      Success(FullTable(FullColumns, bs))
  }

  /** A price bar whose extremes bracket its open and close. */
  predicate WellFormed(b: Bar) {
    b.low <= Min(b.open, b.close) && Max(b.open, b.close) <= b.high
  }

  /**
   * The clamp changes nothing: rounding to cents keeps order, so the
   * rounded high already tops the rounded open and close, and the rounded
   * low already lies below them.
   */
  lemma ClampRedundant(qs: seq<Quote>, draws: seq<Draw>, meanClose: real, i: nat)
    requires i < |qs| && |draws| == |qs|
    ensures Clamp(Unclamped(qs, draws, meanClose, i)) == Unclamped(qs, draws, meanClose, i)
  {
    var o, c := RawOpen(qs, draws, i), qs[i].close;
    var h := RawHigh(o, c, draws[i]);
    var l := RawLow(o, c, draws[i]);
    RoundTwoDecimalsMonotone(o, Max(Max(h, o), c));
    RoundTwoDecimalsMonotone(c, Max(Max(h, o), c));
    RoundTwoDecimalsMonotone(Min(Min(l, o), c), o);
    RoundTwoDecimalsMonotone(Min(Min(l, o), c), c);
  }
}
