# SmartSales analytics and forecasting helpers, in Dafny

This project models the sales-analytics and forecasting helpers of the
SmartSales dashboard (`smartsales/smartsalesapp/utils.py`) and proves what
they promise:

- **Reporting windows** (`get_date_range`). A period name maps to a window that ends
  today. It starts today for `daily`, on the Monday of the current week for `weekly`,
  and on the first of the month for `monthly` and any other name. Dates are
  proleptic Gregorian `(year, month, day)` values. Day numbers are counted as
  Python's `date.toordinal` counts them, and weekdays as `date.weekday` does.
  "Today" is a parameter.
- **Daily series** (`prepare_sales_dataframe`). Transaction amounts are grouped by date
  and summed. They are laid out on every day from the first to the last transaction
  date, with 0 on days without sales. The result is withheld (`None`) when there are no
  rows or fewer than 5 days with positive revenue. The gap fill is a method filling an
  array day by day.
- **Forecast wrapper** (`arima_forecast`). The ARIMA library and the
  mean-absolute-percentage-error metric are a `Library` value of functions, and `None`
  stands for a call that raised. The wrapper around them is modelled exactly: the
  empty-input shortcut, the 80/20 chronological split, the accuracy guard and the
  catch-all fallback to the series mean. The wrapper is a total function, so it never
  fails.
- **Horizon aggregator** (`multi_horizon_forecasts`). One forecast of `max(horizons)`
  steps is made. A loop fills a map from each horizon `h` to the sum of the first `h`
  values.
- **Growth percentage** (`growth_pct`) and **period totals / top product**
  (`calculate_sales_data`). The database query is a filter over a sequence of
  transactions, and the aggregation is a pair of loops.

Modules: `Wrappers` (Option), `Calendar`, `Sums`, `Transactions`,
`SeriesBuilder`, `Forecasting`, `Analytics`, one file each.

What the code does that a reader may not expect, and the model follows:

- The daily series spans the first to the last transaction date, as `asfreq('D')`
  does (`utils.py:34`). It does not run up to today.
- The returned forecast comes from the model fitted on the training part
  (`utils.py:50-52`), so it continues from the end of that part, not from the end of
  the whole series.
- The fallback value is the mean of the whole input series (`utils.py:65`), not of the
  training part.
- For a non-empty series the test part is never empty: `len - int(0.8 * len) >= 1`
  (`Forecasting.Split`). So the accuracy of 100 arises only from a test part that is
  all zeros.

## Model

| member | source | states |
|---|---|---|
| Calendar.Weekday | smartsales/smartsalesapp/utils.py:13 | the weekday of a date, Monday = 0, lies in 0..6 and is smaller than its day number, so stepping back by it stays within the calendar |
| Calendar.PrevDay | smartsales/smartsalesapp/utils.py:13 | the day before a date is a valid date whose day number is one less |
| Calendar.MinusDays | smartsales/smartsalesapp/utils.py:13 | `today - timedelta(days=k)` is a valid date whose day number is exactly k less |
| Calendar.DateRange | smartsales/smartsalesapp/utils.py:8-18 | the window ends today and starts no later than today. `daily` starts today. `weekly` starts on a Monday, `weekday()` days back (at most 6). `monthly` and every other name start on day 1 of the current month, `day - 1` days back |
| Calendar.WeekStart | smartsales/smartsalesapp/utils.py:13 | `today - timedelta(days=today.weekday())` is a valid Monday exactly `weekday()` days back |
| Calendar.MonthStart | smartsales/smartsalesapp/utils.py:15-17 | `today.replace(day=1)` is day 1 of the same year and month, `day - 1` days back |
| Calendar.DaysBeforeYearClosedForm | smartsales/smartsalesapp/utils.py:13 | counting the days before a year year by year agrees with the closed form `365p + p/4 - p/100 + p/400` of Python's date arithmetic |
| Calendar.OrdinalOrder | smartsales/smartsalesapp/utils.py:81 | comparing day numbers is comparing dates: the orders agree and equal day numbers mean equal dates, so the date-range filter may compare day numbers |
| SeriesBuilder.DaySumPermutation | smartsales/smartsalesapp/utils.py:21-24 | grouping by date and summing does not depend on the order of the rows: any reordering of them gives every date the same total |
| SeriesBuilder.DaySumConcat | smartsales/smartsalesapp/utils.py:21-24 | a date's summed amount over two runs of rows is the sum of its amounts over each |
| SeriesBuilder.DayBounds | smartsales/smartsalesapp/utils.py:25-34 | the index runs from the earliest to the latest transaction day: every row lies between them, and some row falls on each of them |
| SeriesBuilder.PrepareSalesSeries | smartsales/smartsalesapp/utils.py:20-40 | returns None exactly when there are no rows or fewer than 5 days with positive revenue; otherwise returns the gap-filled daily totals starting on the first transaction day |
| SeriesBuilder.DayRange | smartsales/smartsalesapp/utils.py:25-34 | computes the first and last day the date-ordered index spans |
| SeriesBuilder.GapFill | smartsales/smartsalesapp/utils.py:31-34 | produces the reference daily totals: each day's summed amount from the first to the last day, missing days at 0 |
| SeriesBuilder.FillDays | smartsales/smartsalesapp/utils.py:33-34 | adding each row into an array of zeros, slot by day, yields each day's summed amount with 0 on days without rows |
| SeriesBuilder.SpanCoversAll | smartsales/smartsalesapp/utils.py:34 | every transaction falls on a day the series covers |
| SeriesBuilder.DailyTotalsConserve | smartsales/smartsalesapp/utils.py:21-34 | the series sums to the total of all rows: grouping and gap filling neither lose nor duplicate an amount |
| SeriesBuilder.DatedAmountsTotal | smartsales/smartsalesapp/utils.py:21-24 | the query rows carry exactly the transactions' total amount |
| SeriesBuilder.DailyTotalsNonNegative | smartsales/smartsalesapp/utils.py:33-34 | with no negative amounts, every day of the series is ≥ 0 |
| Forecasting.TrainSize | smartsales/smartsalesapp/utils.py:46 | the training length is floor(0.8 · len): `5k ≤ 4n < 5(k+1)` |
| Forecasting.Split | smartsales/smartsalesapp/utils.py:46-47 | train ++ test is the input series, train has the split length, and the test part of a non-empty series is non-empty |
| Forecasting.SplitSums | smartsales/smartsalesapp/utils.py:47 | the sums of the train and test parts add up to the series sum |
| Forecasting.TryArima | smartsales/smartsalesapp/utils.py:49-61 | the try block fails exactly when fitting raises, forecasting raises, or the test part has a non-zero value and predicting or scoring raises. On success it returns the model's forecast, with an accuracy ≥ 0, and ≤ 100 when the metric is non-negative |
| Forecasting.AccuracyFromError | smartsales/smartsalesapp/utils.py:57 | the accuracy is `(1 - mape) · 100` clamped at 0: it is ≥ 0, at most 100 for a non-negative error, and 0 once the error reaches 1 |
| Forecasting.ArimaForecast | smartsales/smartsalesapp/utils.py:42-67 | always returns exactly `steps` values. An empty series gives zeros, sum 0 and accuracy 0. Otherwise the historical sum is the series sum on both paths. The accuracy is ≥ 0, and ≤ 100 when the metric is non-negative |
| Forecasting.FallbackIsMean | smartsales/smartsalesapp/utils.py:63-67 | when any call of the try block raises (fit, forecast, predict or the error metric), every value is the mean of the whole series, the accuracy is 0 and the sum is the series sum |
| Forecasting.ConstantSeriesFallback | smartsales/smartsalesapp/utils.py:63-67 | a constant series on which the try block raises is forecast as that constant, with accuracy 0 |
| Forecasting.FallbackNonNegative | smartsales/smartsalesapp/utils.py:65-66 | whichever call raised, the fallback forecast of a series without negative days has no negative value |
| Forecasting.AllZeroTestScoresFull | smartsales/smartsalesapp/utils.py:54-61 | on success with an all-zero test part, the accuracy is 100 and the values are the model's forecast |
| Forecasting.ScoredAgainstTestSpan | smartsales/smartsalesapp/utils.py:54-57 | on success with a non-zero test part, the predictions are taken over exactly the test positions, and the accuracy is `100 - 100 · mape` (or 0 once mape ≥ 1) |
| Forecasting.MaxHorizon | smartsales/smartsalesapp/utils.py:74 | `max(horizons)` is one of the horizons and no horizon exceeds it |
| Forecasting.HorizonForecast | smartsales/smartsalesapp/utils.py:74 | the single forecast has exactly `max(horizons)` values, so every horizon's slice is in range |
| Forecasting.MultiHorizonForecasts | smartsales/smartsalesapp/utils.py:72-77 | the keys are exactly the horizons, and each maps to the sum of the first h values of one forecast of `max(horizons)` steps. With non-negative values, `h1 ≤ h2` implies `result[h1] ≤ result[h2]` |
| Forecasting.ForecastPrefix | smartsales/smartsalesapp/utils.py:50-52 | if the library's forecasts are prefixes of each other, the first h values of a longer forecast are the h-step forecast, on the success path and on the fallback path alike |
| Forecasting.HorizonMatchesDirectForecast | smartsales/smartsalesapp/utils.py:74-76 | under the same library assumption, each horizon total equals the sum of a separate h-step forecast |
| Analytics.GrowthPct | smartsales/smartsalesapp/utils.py:69-70 | 0 whenever previous is 0, whatever current is. Otherwise `r · previous = (current - previous) · 100`. For a positive previous, r is positive exactly when current exceeds previous and 0 exactly when they are equal |
| Analytics.GrowthRoundTrip | smartsales/smartsalesapp/utils.py:69-70 | applying the growth to a non-zero previous value gives back the current value |
| Analytics.InWindow | smartsales/smartsalesapp/utils.py:81 | the range filter keeps exactly the transactions dated within [start, end], each as often as it occurs in the input |
| Analytics.CalculateSalesData | smartsales/smartsalesapp/utils.py:79-96 | the total is the sum over the period's window, 0 when the window is empty. An empty window reports `('N/A', 0)`. Otherwise the top product occurs in the window, its total is its summed quantity, and no product of the window sold more |
| Analytics.Tally | smartsales/smartsalesapp/utils.py:83-87 | computes the window's amount total and each product name's summed quantity |
| Analytics.BestSeller | smartsales/smartsalesapp/utils.py:88-94 | picks a product of the window whose summed quantity is maximal |
| Analytics.DailyWindowIsToday | smartsales/smartsalesapp/utils.py:10-11 | the daily window holds exactly the transactions dated today |
| Analytics.MonthlyWindowIsMonthToDate | smartsales/smartsalesapp/utils.py:14-17 | the monthly window, like that of any unrecognised name, holds exactly the current month's transactions up to today's day |
| Analytics.WeeklyWindowIsWeekToDate | smartsales/smartsalesapp/utils.py:12-13 | the weekly window holds exactly the transactions from this week's Monday to today; older ones, such as last Sunday's, are excluded |
| Analytics.TotalNonNegative | smartsales/smartsalesapp/utils.py:83 | with no negative amounts, a window's total is ≥ 0 |

## Left out

- Floating point: amounts, totals, means and percentages are exact reals. Python
  floats, `Decimal` amounts and `astype(float)` are not modelled.
- `round(..., 2)` in the accuracy and growth percentages is not modelled. The
  contracts speak of the unrounded value.
- `int(len(series) * 0.8)` is modelled as the exact `floor(8n / 10)`. The floating
  product is not modelled.
- `datetime.now()` is a parameter (`today`).
- The ARIMA(1,1,1) estimation, its forecast and its predictions (statsmodels), and
  `mean_absolute_percentage_error` (sklearn), are internals of those libraries. They
  are the `Library` oracle; any exception they raise is `None`.
- Forecasting.ArimaForecast: the length promise relies on the library returning
  `steps` forecast values (`ForecastsHaveRequestedLength`). The bound `accuracy ≤ 100`
  is stated only under the metric's own promise `mape ≥ 0` (`MapeNonNegative`).
- Forecasting.HorizonMatchesDirectForecast: it holds only for a library whose shorter
  forecasts are prefixes of longer ones (`ForecastsArePrefixes`). statsmodels behaves
  this way, but the model does not prove it.
- Forecasting.MultiHorizonForecasts: horizons are natural numbers. Python's
  negative-index slicing for a negative horizon is not modelled. An empty horizon
  tuple, on which `max` raises, is excluded by a precondition.
- pandas mechanics (DataFrame, DatetimeIndex, `set_index`, `rename`) are not modelled.
  The series is a start day plus a sequence of daily totals. The test span handed to
  `predict` is given by positions.
- The Django ORM (`filter`, `values`, `annotate`, `order_by`, `aggregate`) is a filter
  and fold over a sequence of transactions. The `Transaction` model class is not part
  of this model. The model assumes its fields: a date, a total amount, a product name
  and a quantity.
- Analytics.BestSeller: ties go to the first product seen. The database leaves the
  order of ties unspecified, so the contract promises only some product with the
  maximal summed quantity.
- Dates outside the years 1 to 9999 are not modelled; Python's `date` rejects them
  as well.
- Account sign-up, login and password reset by emailed code (`views.py`), form
  declarations (`forms.py`), routing, the admin site and model declarations, and the
  browser scripts (charts, DOM handling, the code-resend countdown) are not modelled.
  They are I/O, framework plumbing and user interface, not sales logic.
