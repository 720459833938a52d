# Bike-rental dashboard: the analysis pipeline, modelled in Dafny

The dashboard (`dashboard/dashboard.py`) loads hourly bike-rental records,
lets the user pick an inclusive hour range and a set of weather codes, shows
the total number of rentals over the rows that match, and segments the
matching days with an RFM (Recency / Frequency / Monetary) scoring. This
project models that pipeline over integer data and proves what it promises:

- `records.dfy` (`Records`): a record is `(day, hr, weathersit, casual,
  registered, cnt)` with the date as an integer day number and natural counts;
  `Option`, `Result`, and the subsequence relation.
- `filter.dfy` (`Filter`): the row mask (`between` with both ends included,
  `isin` on the selected codes) and the filtered view.
- `kpi.dfy` (`Kpi`): Total Rentals, proved equal to a masked sum over the
  whole table.
- `daily_rfm.dfy` (`DailyRfm`): the group-by-date table, one row per distinct
  date in ascending date order, with Recency, Frequency and Monetary.
- `scoring.dfy` (`Scoring`): the scoring stage. The table to which the script
  adds `R_Score`, `F_Score`, `M_Score`, `RFM_Score` and `Segment` one after
  the other is the class `RfmTable`, one `Option` field per column (absent
  until added). The dataframe library's quantile and equal-width binnings are
  a `Library` value: each call either raises or returns a bin number 1..4 per
  value, order-preserving (`Lawful`). The labels `[4,3,2,1]` and `[1,2,3,4]`
  and the fallback are modelled explicitly.
- `dashboard.dfy` (`Dashboard`): one run of the script. It returns the page
  values: Total Rentals, the daily table, and the segmentation or the error
  that stops it.
- `weather.dfy` (`Weather`): the weather-code labels of the sidebar (with the
  `"Unknown"` default) and of the weather chart.

Behaviour of the code that the model keeps as it is:
- The weather labels are the code's Indonesian strings.
- When the equal-width fallback for Frequency or Monetary raises, nothing
  catches the error. The model returns `Raised`.
- When Recency's quartile binning fails, there is no `R_Score` column, and
  reading it for the RFM sum raises a KeyError. The model returns
  `MissingColumn("R_Score")`; it does not skip or default the score.

## Model

| member | source | states |
|---|---|---|
| `Filter.FilterRows` | dashboard/dashboard.py:42-45 | a row is in the view iff it is in the table, `lo <= hr <= hi` and its weather code is selected; the view is a subsequence of the table and never longer |
| `Filter.FilterKeepsMultiplicity` | dashboard/dashboard.py:42-45 | each row value occurs in the view as often as in the table if the mask keeps it, and zero times otherwise |
| `Filter.EmptySelectionKeepsNothing` | dashboard/dashboard.py:44 | with no weather code selected the view is empty |
| `Kpi.TotalRentalsIsMaskedSum` | dashboard/dashboard.py:51 | Total Rentals equals the sum of `cnt` over exactly the table rows satisfying the filter predicate |
| `Kpi.EmptySelectionTotalIsZero` | dashboard/dashboard.py:51 | with no weather code selected Total Rentals is 0 |
| `DailyRfm.MaxDay` | dashboard/dashboard.py:98 | the latest date of a non-empty view is one of its dates and no row is later |
| `DailyRfm.SortedDays` | dashboard/dashboard.py:97 | the group keys are strictly ascending and are exactly the dates present in the view |
| `DailyRfm.CountPositiveIffPresent` | dashboard/dashboard.py:99 | a date has a positive row count iff it occurs in the view |
| `DailyRfm.Aggregate` | dashboard/dashboard.py:97-101 | one row per date, dates strictly ascending, covering exactly the view's dates; Frequency is that date's row count and is at least 1, Monetary is that date's `cnt` sum, Recency is the latest date minus this one and is at least 0 |
| `DailyRfm.AggregateConserves` | dashboard/dashboard.py:99-100 | summing the Frequency (or Monetary) column gives the count (or `cnt` sum) over the whole view |
| `DailyRfm.FrequenciesSumToViewSize` | dashboard/dashboard.py:99 | the Frequencies add up to the number of rows in the view |
| `DailyRfm.MonetarySumsToTotalRentals` | dashboard/dashboard.py:100 | the Monetary values add up to Total Rentals |
| `DailyRfm.LatestDayHasZeroRecency` | dashboard/dashboard.py:98 | for a non-empty view the last row is the latest date and has Recency 0 |
| `DailyRfm.OneRowPerDistinctDay` | dashboard/dashboard.py:97-101 | the table has exactly as many rows as the view has distinct dates |
| `Scoring.RecencyScores` | dashboard/dashboard.py:105 | every R score is in 1..4, and a day with smaller Recency never scores lower than one with larger Recency |
| `Scoring.AscendingScores` | dashboard/dashboard.py:110-119 | every F or M score is in 1..4, and a larger value never scores lower |
| `Scoring.QuartilesOrEqualWidth` | dashboard/dashboard.py:109-119 | the labelled quartile scores when quartile binning succeeds; the labelled equal-width scores when it raises and equal-width binning succeeds; nothing exactly when both raise; any result is an ascending score column |
| `Scoring.SumScores` | dashboard/dashboard.py:122-124 | for score columns in 1..4, every row's RFM_Score (R + F + M) lies in 3..12 |
| `Scoring.SegmentThresholds` | dashboard/dashboard.py:127-133 | VIP iff score >= 9, Regular iff 5 <= score < 9, Churn Risk iff score < 5 |
| `Scoring.SegmentMonotone` | dashboard/dashboard.py:127-133 | a higher RFM score never lands in a lower segment |
| `Scoring.SegmentBoundaries` | dashboard/dashboard.py:127-133 | 3 and 4 give Churn Risk, 5 and 8 give Regular, 9 and 12 give VIP; the names shown are "VIP", "Regular", "Churn Risk" |
| `Scoring.RfmTable.constructor` | dashboard/dashboard.py:97-101 | the grouped table starts with no score columns |
| `Scoring.RfmTable.ScoreRecency` | dashboard/dashboard.py:104-107 | adds R_Score from the Recency quartiles; if they raise, the error is caught and no column is added; other columns unchanged |
| `Scoring.RfmTable.ScoreFrequency` | dashboard/dashboard.py:109-113 | adds F_Score from quartiles or the equal-width fallback; reports when the fallback raises; other columns unchanged |
| `Scoring.RfmTable.ScoreMonetary` | dashboard/dashboard.py:115-119 | adds M_Score the same way from Monetary; other columns unchanged |
| `Scoring.RfmTable.CombineScores` | dashboard/dashboard.py:122-124 | with all three scores present adds RFM_Score = R + F + M, each in 3..12; otherwise names the first missing column (R_Score first) and adds nothing |
| `Scoring.RfmTable.AssignSegments` | dashboard/dashboard.py:127-135 | adds Segment, the thresholds applied to every row's RFM_Score |
| `Dashboard.Segmentation` | dashboard/dashboard.py:104-135 | the Frequency fallback raising gives `Raised("Frequency")`, then the Monetary one `Raised("Monetary")`; with both scored, failed Recency binning gives `MissingColumn("R_Score")`; otherwise every row keeps its daily values, carries the labelled Recency quartile and the Frequency and Monetary scores of its position, scores in 1..4, RFM_Score their sum in 3..12 and the threshold segment, with R descending in Recency and F, M ascending in their values |
| `Dashboard.Assemble` | dashboard/dashboard.py:122-135 | each scored row carries its daily row and exactly the given R, F, M, RFM_Score and Segment values, which are well-scored and in the scoring directions |
| `Dashboard.Run` | dashboard/dashboard.py:42-135 | Total Rentals equals the masked sum over the table; the daily table is the grouping of the view; its Monetary column sums to Total Rentals and its Frequencies to the size of the view, at most the table size; an empty weather selection gives 0 and no days; the segmentation is the scoring stage's outcome on the daily table, failures included |
| `Weather.OptionLabelTotal` | dashboard/dashboard.py:33-38 | codes 1..4 get a real label, every other code gets "Unknown" |
| `Weather.OptionLabelsDistinct` | dashboard/dashboard.py:33-37 | different codes in 1..4 get different labels |
| `Weather.ChartLabelAgreesWithOptionLabel` | dashboard/dashboard.py:74-80 | the chart labels a code iff it is in 1..4, with the same label as the sidebar |

## Left out

- Page setup, titles, sidebar widgets and metric display, the data-load cache
  and rerun-on-interaction behaviour: framework plumbing. One run is `Dashboard.Run`;
  the sidebar values are its parameters.
- Reading the CSV file and parsing dates: file I/O. The table is an input
  sequence with integer day numbers. `cnt == casual + registered` is neither
  assumed nor checked, as in the code.
- The casual and registered averages, the hourly and per-weather means, and
  the per-segment summary means: floating point.
- All charts, and the per-segment count listing shown with them: display only.
- The printed diagnostics of caught binning errors. `ScoreRecency` returns
  the caught error as `caught`. The messages the Frequency and Monetary stages
  print before falling back are not modelled.
- The internals of quantile and equal-width binning (interpolated edges,
  widening of the range, dropping of duplicate edges, when exactly a call
  raises): library numerics. `Library` and `Lawful` take as given that a
  successful call returns one bin in 1..4 per value, order-preserving.
  Everything about the scores is proved from that assumption.
- `Kpi.TotalRentals`: the code sums `cnt` in 64-bit integers; the model sums
  unbounded naturals and does not model wrap-around, which no realistic rental
  table comes near.
