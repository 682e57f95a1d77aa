# Forecast demo backend: a Dafny model

This project models the computational core of a small forecasting demo.
A user uploads a table. The backend does five things with it:

- It previews the table.
- It normalises two chosen columns into a clean daily series. This means dropping incomplete rows, sorting by day, and keeping the last row of each day.
- It profiles the series: size, date range, location, spread and outliers.
- It measures a trend and weekly seasonality, and summarises a forecast.
- It writes a scripted narration whose steps highlight metrics on the page.

The forecast comes from the Prophet library when that library is available and the data are big enough. Otherwise a fallback forecaster extends the linear trend of the last 30 values, with a band of 1.96 sample standard deviations of the residuals. Both kinds of response carry the history, a one-line summary of the change to the last forecast day, the short-data warning when due and zero diagnostics. They differ in that summary's wording: the fallback calls its figure simplified (簡易), and the fitted one adds a note to treat the overall trend as a rough guide. Only a fallback response has a first warning that announces the fallback and its reason.

A separate offline script turns a Date/Close price table into a full Open/High/Low/Close/Volume table.

All core code is pure: it takes tables and returns values. The model uses datatypes, functions and lemmas throughout.

- Dates are day numbers (days since 1970-01-01).
- Tables are sequences of rows.
- Library statistics appear as parameters, constrained by the facts that define them. These are the sample standard deviation with `ddof=1` and the Euclidean norm.
- Least-squares fits, percentiles and rounding are computed exactly over the reals.

Modules:

- `Wrappers`: Option and Result.
- `Sorting`: the stable sort used for "sort by day".
- `Numerics`: sums, means, percentiles, least squares, Cauchy–Schwarz, round-half-even.
- `Series`: the observation and forecast-row types.
- `CsvUtils`, `Analytics`, `ProphetService` and `MakeFull`: one module per source file.

## Model

| member | source | states |
|---|---|---|
| CsvUtils.PreviewCsv | backend/utils/csv_utils.py:5-8 | The column names are returned unchanged. The row count is `head(limit)`'s, negative limits included. Every kept row is the source row with each missing cell turned into `''`, so no cell is missing. |
| CsvUtils.FillNa | backend/utils/csv_utils.py:7 | `fillna('')`: a missing cell becomes the empty string and every other cell is kept. |
| CsvUtils.HeadCount | backend/utils/csv_utils.py:7 | `head(limit)` keeps min(limit, n) rows for limit >= 0. For a negative limit it keeps max(n + limit, 0) rows. |
| CsvUtils.IndexOf | backend/utils/csv_utils.py:12 | A column lookup finds a name exactly when it is among the columns, at a position holding that name. |
| CsvUtils.ValueOf | backend/utils/csv_utils.py:16 | A value cell counts as present exactly when it holds a number, and then it is that number. |
| CsvUtils.Project | backend/utils/csv_utils.py:12-15 | Each row keeps its parsed date cell and its numeric value cell, in the original order. |
| CsvUtils.DropInvalid | backend/utils/csv_utils.py:16 | Every kept row had both a date and a value, and every row with both is kept. The kept rows are a subsequence of the input, in input order. |
| CsvUtils.DropInvalidAppend | backend/utils/csv_utils.py:16 | `dropna` works row by row: on two tables one after the other it keeps the first's rows, then the second's. |
| CsvUtils.DropInvalidCount | backend/utils/csv_utils.py:16 | `dropna` keeps exactly one row per complete input row. |
| CsvUtils.LastWith | backend/utils/csv_utils.py:19 | For a day that occurs, the last row of that day is found. For a day that does not occur, nothing is found. |
| CsvUtils.DropDuplicatesKeepLast | backend/utils/csv_utils.py:19 | Dropping duplicate days only removes rows: the result is a subsequence of the input, its rows in their input order. |
| CsvUtils.DropDuplicatesDates | backend/utils/csv_utils.py:19 | Dropping duplicate days loses no day. |
| CsvUtils.DropDuplicatesDistinctDates | backend/utils/csv_utils.py:19 | After dropping duplicates, no day occurs twice. |
| CsvUtils.DropDuplicatesKeepsLast | backend/utils/csv_utils.py:19 | `keep='last'`: the row kept for a day is the last input row of that day. |
| CsvUtils.DropDuplicatesIncreasing | backend/utils/csv_utils.py:18-19 | On a day-sorted series, dropping duplicates leaves strictly increasing days. |
| CsvUtils.SortKeepsLastWith | backend/utils/csv_utils.py:18-19 | The stable sort by day keeps the same last row for every day. |
| CsvUtils.SortAndDedupe | backend/utils/csv_utils.py:18-19 | Sorting then de-duplicating gives strictly increasing days over exactly the input's days. Its rows are input rows, each the last input row of its day. |
| CsvUtils.DedupeAnyTieOrder | backend/utils/csv_utils.py:18-19 | Take any day-sorted permutation, whatever the order of rows that share a day. De-duplicating it gives strictly increasing days over the input's days, made of input rows. |
| CsvUtils.Clean | backend/utils/csv_utils.py:15-19 | The cleaned series has strictly increasing days and is made of complete input rows. It keeps the day of every complete input row. Each kept row is the last complete row of its day. |
| CsvUtils.DropInvalidLift | backend/utils/csv_utils.py:16 | A series without missing cells passes `dropna` unchanged. |
| CsvUtils.CleanIdempotent | backend/utils/csv_utils.py:15-19 | Cleaning an already clean series returns it unchanged. |
| CsvUtils.Normalize | backend/utils/csv_utils.py:11-20 | Normalisation fails (KeyError) exactly when a named column is absent or both names are the same column. Otherwise it returns the cleaned projection. |
| CsvUtils.NormalizeIdempotent | backend/utils/csv_utils.py:11-20 | Normalising the output of `normalize` again, by `ds` and `y`, gives the same series. |
| Sorting.SortBy | backend/utils/csv_utils.py:18 | `sort_values`: the result is sorted by the key and is a permutation of the input. |
| Sorting.InsertBySorted | backend/utils/csv_utils.py:18 | Inserting into a sorted sequence keeps it sorted. |
| Sorting.SortBySorted | backend/utils/csv_utils.py:18 | Sorting an already sorted sequence changes nothing. |
| Series.MinDate | backend/services/analytics.py:18 | `ds.min()` is one of the series' days and no later than any of them. |
| Series.MaxDate | backend/services/analytics.py:19 | `ds.max()` is one of the series' days and no earlier than any of them. |
| Analytics.ComputeProfile | backend/services/analytics.py:14-39 | Profiling fails exactly on an empty series (the empty reduction raises). Otherwise `rows` is the length, and min and max are values that bound all values. Median and mean lie between them, and the date range is the range of the days. std is non-negative, and 0 for one row. cv is std/mean and undefined for a zero mean. Outliers are at most the row count and 0 below 4 rows. missing and duplicates are 0. For a non-empty series, mean, median, min and max are exactly those of the values, std is the library's ddof=1 value above one row, and outliers is the IQR outlier count. |
| Analytics.CoefficientOfVariation | backend/services/analytics.py:25 | cv is undefined exactly for a zero mean; otherwise cv·mean = std. |
| Analytics.CountOutside | backend/services/analytics.py:31 | Counts exactly the positions whose value lies strictly below the lower fence or strictly above the upper one. That is at most every value, and none when all lie within the fences. |
| Analytics.OutlierCount | backend/services/analytics.py:27-31 | Below 4 rows the count is 0. From 4 rows it is the number of values strictly below q1 - 1.5·(q3 - q1) or strictly above q3 + 1.5·(q3 - q1), with q1 and q3 the 25th and 75th percentiles. |
| Analytics.ProfileOfConstant | backend/services/analytics.py:14-39 | A constant series has mean, median, min and max equal to the constant. Its std and outlier count are 0, and cv is undefined when the constant is 0. |
| Analytics.OutliersOfConstant | backend/services/analytics.py:27-31 | A constant series has no outliers. |
| Numerics.Percentile | backend/services/analytics.py:27 | A linear-interpolation percentile lies between the minimum and the maximum. |
| Numerics.PercentileConstant | backend/services/analytics.py:27 | Every percentile of a constant series is the constant. |
| Numerics.Median | backend/services/analytics.py:21 | The median lies between the minimum and the maximum. |
| Numerics.MeanBounds | backend/services/analytics.py:20 | The mean (`Mean`, sum over count) lies between the minimum and the maximum. |
| Numerics.MinOf | backend/services/analytics.py:22 | `np.nanmin` is one of the values and no value is below it. |
| Numerics.MaxOf | backend/services/analytics.py:23 | `np.nanmax` is one of the values and no value is above it. |
| Numerics.MeanConstant | backend/services/analytics.py:20 | The mean of a constant series is the constant. |
| Numerics.SampleStdOfConstant | backend/services/analytics.py:24 | The sample standard deviation (`IsSampleStd`, ddof = 1) of a constant series is 0. |
| Analytics.Last | backend/services/analytics.py:50 | `y[-k:]`: the last k values, in order. |
| Analytics.SlopeWindow | backend/services/analytics.py:46 | The slope window is min(30, max(2, n)): 2 below two points, n from 2 to 30 points, and 30 above. It never exceeds a series of at least 2 points. |
| Analytics.Lookback | backend/services/analytics.py:57 | The lookback is at most 63 and below the row count. It is 0 exactly for at most one row. |
| Analytics.ComputeTrend | backend/services/analytics.py:42-66 | Below 2 rows the slope is 0. From 2 rows it is the least-squares slope of the last min(30, n) values. Changepoints are empty. The 3-month change is undefined exactly when its base, 63 rows back or the first row, is 0. Otherwise it is the percent change from that base to the last value. |
| Analytics.TrendSlopeOfLine | backend/services/analytics.py:46-55 | When the last window lies on a line, the reported slope is that line's slope. |
| Analytics.Delta3moSign | backend/services/analytics.py:57-61 | Against a positive base, the 3-month change is defined. It is non-negative exactly when the last value is not below the base. |
| Numerics.FitRecoversLine | backend/services/analytics.py:53 | Least squares (`LeastSquaresSlope` and `LeastSquaresIntercept`, the closed form of a degree-1 `np.polyfit`) on points lying on a line returns that line's slope and intercept. |
| Numerics.PctChangeSign | backend/services/analytics.py:59 | A percent change is 0 exactly when the value equals the base. Against a positive base it is non-negative exactly when the value is not below the base; against a negative base, the reverse. |
| Analytics.Weekday | backend/services/analytics.py:71 | The weekday number lies in 0..6. |
| Analytics.WeekdayAnchor | backend/services/analytics.py:71 | Monday is 0: day 4 (1970-01-05, a Monday) is 0 and day 3 (a Sunday) is 6. |
| Analytics.WeekdayNext | backend/services/analytics.py:71 | Each next day is the next weekday, Sunday (6) wrapping round to Monday (0). |
| Analytics.WeekdayPeriodic | backend/services/analytics.py:71 | Days a whole number of weeks apart share a weekday. |
| Analytics.GroupValues | backend/services/analytics.py:72 | A weekday's group has one value per row on that weekday. |
| Analytics.GroupValuesMultiplicity | backend/services/analytics.py:72 | Each value occurs in the group exactly as often as rows on that weekday carry it, so the group mean is the mean of those rows. |
| Analytics.GroupValuesMembers | backend/services/analytics.py:72 | Every row on the weekday contributes its value, and every value in the group comes from such a row. |
| Analytics.RowsOnOccurs | backend/services/analytics.py:72 | Some row falls on a weekday exactly when it is among the series' weekdays (a key of the groupby). |
| Analytics.GroupMean | backend/services/analytics.py:72 | A weekday's group mean exists exactly when that weekday occurs. |
| Analytics.WeekdayMean | backend/services/analytics.py:73 | The weekday mean exists exactly when Monday to Friday all occur. |
| Analytics.WeekendMean | backend/services/analytics.py:74 | The weekend mean exists exactly when Saturday and Sunday both occur. |
| Analytics.WeekendDeltaPct | backend/services/analytics.py:75-77 | The weekend change is defined exactly when all seven weekdays occur and both means are non-zero (Python truthiness). It is then the percent change from the weekday mean to the weekend mean. |
| Analytics.Acf7 | backend/services/analytics.py:79-86 | The lag-7 autocorrelation is defined only above 14 rows. It then lies in [-1, 1], and it is undefined exactly when one of the two lag windows is constant (zero norm). |
| Analytics.CenteredZero | backend/services/analytics.py:82-85 | A centred window has zero norm exactly when the window is constant. |
| Analytics.NormZero | backend/services/analytics.py:84-85 | A norm (`IsNorm`, the root of the sum of squares `Dot(x, x)`) is 0 exactly when the sum of squares is 0. |
| Analytics.DotSelfZeroAll | backend/services/analytics.py:84-85 | A sum of squares is 0 exactly when every entry is 0. |
| Numerics.CauchySchwarz | backend/services/analytics.py:84-86 | (x·y)² ≤ (x·x)(y·y) for all equal-length vectors. |
| Numerics.CorrelationBounded | backend/services/analytics.py:84-86 | A dot product divided by the product of the two norms lies in [-1, 1]. |
| Numerics.Centered | backend/services/analytics.py:82-83 | A centred window has one entry per value, each the value less the window's mean. |
| Analytics.StrengthLabel | backend/services/analytics.py:88-96 | The label is Unknown exactly for a missing value. Otherwise it is Strong from 0.5, Medium from 0.2 and Weak below, in absolute value. |
| Analytics.StrengthMonotone | backend/services/analytics.py:88-96 | A larger absolute autocorrelation never gets a weaker label. |
| Analytics.ComputeSeasonality | backend/services/analytics.py:69-102 | acf7 is the lag-7 autocorrelation of the values: defined only above 14 rows, and then in [-1, 1]. The strength is Unknown exactly when acf7 is undefined; otherwise it is acf7's label. The weekend change is the weekend-versus-weekday percent change. |
| Analytics.FutureRows | backend/services/analytics.py:107 | The future part is a suffix of the forecast: `tail(h)` when there are at least h rows, else the whole forecast. A negative h drops -h rows from the front. |
| Analytics.Pick | backend/services/analytics.py:108-113 | `pick(i)` gives the i-th future row, or the last row when there are fewer. It gives nothing for an empty future. |
| Analytics.Ratio | backend/services/analytics.py:118 | For a non-zero forecast the ratio is non-negative and is the band width \|upper-lower\| divided by \|yhat\|. |
| Analytics.BandRatios | backend/services/analytics.py:118 | One ratio per row with a non-zero forecast, in order, each non-negative. |
| Analytics.ForecastedEmpty | backend/services/analytics.py:117-121 | No row has a non-zero forecast exactly when every forecast is 0, so there are no ratios exactly then. |
| Analytics.BandRatiosMultiplicity | backend/services/analytics.py:118 | Each ratio occurs exactly as often as rows with a non-zero forecast have it, so the median is over exactly those rows' ratios. |
| Analytics.BandRatiosMembers | backend/services/analytics.py:118 | Every row with a non-zero forecast contributes its ratio, and every ratio comes from such a row. |
| Analytics.BandRatio | backend/services/analytics.py:117-121 | The band ratio is undefined exactly when every future forecast is 0. Otherwise it is a non-negative median lying between the smallest and largest ratio. |
| Analytics.ConfidenceFromBand | backend/services/analytics.py:123-130 | Confidence is Unknown exactly without a band ratio. It is High below 0.1, Mid below 0.2 and Low otherwise. |
| Analytics.ConfidenceMonotone | backend/services/analytics.py:123-130 | A wider band never gives a higher confidence. |
| Analytics.SummarizeForecast | backend/services/analytics.py:105-142 | The 5-day figures (forecast, lower, upper) are those of `pick(5)` and the 30-day ones those of `pick(30)`; all are absent exactly for an empty future. The band ratio is the median ratio of the future rows, absent exactly when every future forecast is 0, and confidence follows it. The 30-day change is absent exactly when there is no history, the latest value is 0 or there is no 30-day figure. Otherwise it is the percent change from the latest value. |
| Analytics.NarrowBandsHighConfidence | backend/services/analytics.py:117-131 | When every future band is narrower than a tenth of its non-zero forecast, confidence is High. |
| Analytics.NarrowRatios | backend/services/analytics.py:118 | When every band is narrower than a tenth of its non-zero forecast, every ratio is below 0.1. |
| Analytics.Delta30Sign | backend/services/analytics.py:133-134 | Against a positive latest value, the 30-day change is non-negative exactly when the forecast is not below that value. |
| Analytics.DistributionOf | backend/services/analytics.py:179 | A distribution is symmetric exactly when \|mean-median\| is below a tenth of max(mean, 1). |
| Analytics.VariationOf | backend/services/analytics.py:180 | Variation is stable exactly below 0.15 and volatile exactly from 0.3. |
| Analytics.VariationMonotone | backend/services/analytics.py:180 | A larger cv is never described as more stable. |
| Analytics.SeasonalityCommentOf | backend/services/analytics.py:182-184 | Strong strength gives the clear-pattern comment, which carries \|weekend_pct\|. Medium gives the variation comment, which carries weekend_pct. Anything else gives "limited". |
| Analytics.TrendDirectionOf | backend/services/analytics.py:186-187 | The trend is rising above 2%, falling below -2% and flat in between. |
| Analytics.ReliabilityOf | backend/services/analytics.py:189-190 | Reliability is high precision exactly for High confidence and medium exactly for Mid. |
| Analytics.Selector | backend/services/analytics.py:243-260 | A metric's selector is `[data-metric='`, then the key, then `']`. |
| Analytics.Targets | backend/services/analytics.py:243-260 | The targets map has exactly the 15 listed keys, each to its one selector. |
| Analytics.Script | backend/services/analytics.py:192-241 | The narration has eight steps. |
| Analytics.ScriptIds | backend/services/analytics.py:192-241 | The steps are opening, data_overview, variation_analysis, seasonality_analysis, trend_analysis, forecast_results, reliability_assessment and conclusion, in that order. |
| Analytics.ScriptWaits | backend/services/analytics.py:192-241 | Every step waits a positive time, and the waits add up to 40 000 ms. |
| Analytics.ScriptHighlights | backend/services/analytics.py:192-260 | Every highlighted metric is a key of `targets`, and the conclusion highlights nothing. |
| Analytics.ScriptShape | backend/services/analytics.py:192-241 | Combines the three properties above. The forecast step also narrates exactly the two figures it is given. |
| Analytics.GenerateExplanationsAsWritten | backend/services/analytics.py:224-225 | As written, the narration fails exactly when the 30-day figure or the 30-day change is None. Otherwise the forecast step narrates both figures. |
| Analytics.ZeroLatestBreaksNarration | backend/services/analytics.py:133-134 | A latest value of 0 makes the as-written narration fail. |
| Analytics.EmptyForecastBreaksNarration | backend/services/analytics.py:107-115 | An empty forecast makes the as-written narration fail. |
| Analytics.GenerateExplanations | backend/services/analytics.py:192-267 | The corrected narration never fails. It narrates an undefined figure as 0, agrees with the as-written one whenever that succeeds, and returns the targets map. |
| Analytics.HighlightsHaveTargets | backend/services/analytics.py:192-260 | Every metric the corrected narration highlights has a target. |
| ProphetService.Recent | backend/services/prophet_service.py:18 | `tail(30)`: the values of the last min(n, 30) rows, in order. |
| ProphetService.LastDate | backend/services/prophet_service.py:35 | The base day is the latest day of the series, no earlier than any row's day, and today's date for an empty series. |
| ProphetService.Horizon | backend/services/prophet_service.py:36-39 | `range(int(horizon))` has horizon rows, and none for a negative horizon. |
| ProphetService.Residuals | backend/services/prophet_service.py:33 | One residual per recent point. |
| ProphetService.BandSigma | backend/services/prophet_service.py:33 | The band σ is non-negative, and 0 for at most one recent point. |
| ProphetService.BandPoint | backend/services/prophet_service.py:39-41 | A forecast row carries its day and point forecast, with bounds exactly 1.96·σ below and above it. |
| ProphetService.FallbackForecast | backend/services/prophet_service.py:35-48 | The fallback gives one row per horizon day (none for a non-positive horizon). Row i is dated i+1 days after the last observed day, or after today's date for an empty series. Its forecast is level + slope·(i+1), with the 1.96·σ band. |
| ProphetService.LinePoints | backend/services/prophet_service.py:36-47 | n daily rows following a line from the given level with the given slope. |
| ProphetService.FallbackSteps | backend/services/prophet_service.py:39 | Consecutive fallback rows are one day apart, and their forecasts differ by exactly the trend slope. |
| ProphetService.ResidualsOnLine | backend/services/prophet_service.py:26-33 | When the recent points lie on a line, every residual of the fit is 0. |
| ProphetService.FallbackParamsOnLine | backend/services/prophet_service.py:24-33 | When the recent points lie on a line, the fit recovers its slope (`TrendSlope`). The level (`Level`, the last recent value) is the line's last point, and σ is 0. |
| ProphetService.FallbackContinuesLine | backend/services/prophet_service.py:18-41 | When the recent points lie on a line, the fallback forecast continues that line from its last point, with its own slope and a zero-width band. |
| ProphetService.LinePointsOnLine | backend/services/prophet_service.py:36-41 | Continuing the line a + b·k from point n-1 puts row i at a + b·(n+i), with both bounds equal to it. |
| ProphetService.FlatSeriesForecast | backend/services/prophet_service.py:18-48 | A constant series of at least two rows yields a forecast and both band bounds equal to the constant. |
| ProphetService.FlatSeriesFallback | backend/services/prophet_service.py:14-70 | A constant, non-zero series of at least two rows yields a flat fallback forecast and the summary "+0.0%". |
| ProphetService.FlatSummary | backend/services/prophet_service.py:50-58 | A forecast that ends at the latest value is summarised as "+0.0%". |
| ProphetService.DeltaPct | backend/services/prophet_service.py:50-54 | The change is undefined exactly when there is no history, no forecast or a zero latest value. Otherwise it is within 0.05 of the exact percent change from the latest value to the last forecast. |
| Numerics.RoundOneDecimalError | backend/services/prophet_service.py:54 | Rounding to one decimal (`RoundOneDecimal`, half-even) moves a value by at most 0.05. |
| Numerics.RoundOneDecimalSign | backend/services/prophet_service.py:54-57 | A rounded change is non-negative exactly when the change is at least -0.05. |
| ProphetService.SummaryOf | backend/services/prophet_service.py:55-58 | The summary is "-" exactly without a change. Otherwise it carries the change, with a "+" exactly when the change is not negative. |
| ProphetService.SummarySign | backend/services/prophet_service.py:53-58 | The "+" appears exactly when the unrounded change is at least -0.05%. |
| ProphetService.ShortDataWarnings | backend/services/prophet_service.py:61-62 | The short-data warning appears, once, exactly when there are fewer than two rows per horizon day. |
| ProphetService.FallbackResponse | backend/services/prophet_service.py:14-70 | The fallback response has the history, the fallback forecast and the simplified summary. Its warnings are the fallback notice with the reason, then the short-data warning. Its diagnostics are all zero. |
| ProphetService.ProphetResponse | backend/services/prophet_service.py:91-117 | The fitted response has the history, the model's forecast and the plain summary. Its only possible warning is the short-data one, and its diagnostics are zero. |
| ProphetService.RunForecast | backend/services/prophet_service.py:73-117 | A failed import falls back with its reason. So does a series of fewer than max(10, horizon) rows, and then a failed fit. Otherwise the response is the fitted one, built from the model's own forecast. The response starts with a fallback notice exactly in the fallback cases. History and diagnostics are the same in all cases. |
| ProphetService.TooFewGuard | backend/services/prophet_service.py:80 | The size guard fails exactly on fewer than ten rows or fewer rows than days asked for. |
| MakeFull.Truncate | backend/scripts/make_full_from_close.py:35 | `astype(int)` truncates toward zero. |
| MakeFull.Closes | backend/scripts/make_full_from_close.py:23 | The close column, row by row. |
| MakeFull.PrevClose | backend/scripts/make_full_from_close.py:23 | `shift(1).fillna(Close)`: the previous row's close, and the first row's own close. |
| MakeFull.MeanClose | backend/scripts/make_full_from_close.py:34 | `np.nanmean` of the closes lies between the lowest and highest close. |
| MakeFull.RawOpen | backend/scripts/make_full_from_close.py:23-25 | The open is the previous row's close plus the gap. The first row uses its own close. |
| MakeFull.RawHigh | backend/scripts/make_full_from_close.py:27-31 | The high before rounding is no lower than the open and the close. |
| MakeFull.RawLow | backend/scripts/make_full_from_close.py:27-32 | The low before rounding is no higher than the open and the close. |
| MakeFull.Volume | backend/scripts/make_full_from_close.py:34-35 | The volume is undefined exactly for a zero mean close. |
| MakeFull.Unclamped | backend/scripts/make_full_from_close.py:37-44 | A row keeps its day and its close and open rounded to cents. |
| MakeFull.Clamp | backend/scripts/make_full_from_close.py:45-47 | After the clamp, Low ≤ Open, Close ≤ High. Each extreme is the old extreme, the open or the close, and day, open, close and volume are unchanged. |
| MakeFull.ClampWellFormed | backend/scripts/make_full_from_close.py:45-47 | A clamped row is a well-formed price bar. |
| MakeFull.ClampRedundant | backend/scripts/make_full_from_close.py:39-47 | The final clamp changes nothing, because rounding to cents preserves order. |
| Numerics.RoundTwoDecimalsMonotone | backend/scripts/make_full_from_close.py:39-42 | Rounding to cents (`RoundTwoDecimals`, half-even) preserves order. |
| Numerics.RoundTwoDecimalsError | backend/scripts/make_full_from_close.py:39-42 | Rounding to cents moves a price by at most half a cent. |
| MakeFull.Bars | backend/scripts/make_full_from_close.py:37-47 | One clamped row per input row, each built from its own row and draws. |
| MakeFull.MakeFull | backend/scripts/make_full_from_close.py:16-48 | The table fails exactly without a Date or a Close column. Otherwise it has the six output columns and one row per input row, in day order over a permutation of the input. Each row is well-formed and built from the sorted input. |

## Left out

- Text formatting: the business and technical paragraphs of `generate_explanations` (analytics.py:146-171) are not modelled. The narration's lines are modelled as the figures and labels they are formatted from, not as strings. This includes f-string number formats and how `-0.0` prints.
- CsvUtils.Normalize: `pd.to_datetime(errors='coerce')` is a parse parameter, and only day precision is kept. A non-numeric text cell in the value column survives `dropna` in pandas; the model drops it like a blank cell.
- CsvUtils.Normalize: duplicate column names in the uploaded table are not modelled.
- Sorting.SortBy: `sort_values` does not promise a stable order for rows sharing a day. The model sorts stably. `DedupeAnyTieOrder` covers every tie order for the tie-independent properties.
- Floating point: every number is an exact real. NaN, infinities and binary rounding are not modelled. `round` and `np.round` are round-half-even on exact values.
- ProphetService.DeltaPct: its contract bounds the rounded change within 0.05 of the exact one. The exact half-even rounding is RoundOneDecimal.
- Library statistics: `np.std(ddof=1)` and `np.linalg.norm` are parameters constrained by their defining equations. `np.polyfit` and `np.nanpercentile` are computed in closed form.
- `np.polyfit` exceptions (analytics.py:52-55, prophet_service.py:30-32). The trend slope uses at least two points with distinct abscissae, and there the exact fit never raises. The fallback's recent window can hold a single row, at abscissa 0, where a degree-1 fit is underdetermined. Whether the library raises there (the `except` branch: slope 0, intercept the mean) or returns its minimum-norm fit, the slope is 0 and the intercept is that row's value. `TrendSlope` and `TrendIntercept` give exactly those values for one point. No other case raises on exact reals.
- Prophet itself: the import, fit and predict are a ProphetOutcome parameter (import failed, fit failed, or a forecast).
- Today's date (`pd.Timestamp.today()`) is a parameter. Logging is left out.
- MakeFull.MakeFull: the random generator is replaced by one Draw per sorted row, holding that row's gap, high and low samples and volume noise. Their distributions are not modelled: the normal laws, the scales `max(0.001, …)` and `spread`, and the seed.
- MakeFull.MakeFull: the model sorts by the parsed day, while `sort_values('Date')` sorts the Date column's raw values, which for text is lexicographic order. The two orders are the same when every Date is 'YYYY-MM-DD' text or already a date; other text formats can sort differently. The `pd.to_datetime` call at make_full_from_close.py:38 raises on a Date it cannot parse; the model takes every Date as already parsed.
- MakeFull.Volume: a zero mean close gives no volume, where the library would produce an undefined integer cast.
- The Claude text service, the web app's routes, the entry point and the price-fetching script are not part of this model.

## Findings

| source | as written | input that shows it | evidently intended | confidence | as-written member | corrected member |
|---|---|---|---|---|---|---|
| backend/services/analytics.py:225 | The forecast step formats `fsum.get('p50_30', 0)` with `:.1f` and `fsum.get('delta_30_pct', 0)` with `:+.1f`. `summarize_forecast` always sets both keys, so the default never applies, and a None value reaches the numeric format and raises TypeError. | A series whose latest value is 0 (`delta_30_pct` is None), or an empty forecast (`p50_30` is None). | Narrate an undefined figure as 0, as every other optional figure in the function already is (`or 0`). | not executed | Analytics.GenerateExplanationsAsWritten | Analytics.GenerateExplanations |
