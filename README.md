# Delivery-time dashboard: statistical core

A Dafny model of the statistical core of `streamlit_app.py`, a Streamlit
dashboard over a table of food deliveries in New Delhi. One run of the script
does the following:

1. It keeps the orders whose order day and order hour fall inside the
   sidebar's date range and hour range.
2. It runs a Kruskal-Wallis test of "Delivery Time (minutes)" across the
   levels of each of ten factor columns, in a fixed order. A column is
   flagged when its p-value is below 0.05.
3. For each flagged column, it shows a panel. If exactly two levels are
   selected, the panel holds a rank-sum ("Wilcoxon") verdict: the p-value,
   whether the difference is significant, and whether the first level's
   median time is greater or less than the second's. Otherwise it holds a
   prompt to select exactly two levels.
4. It groups the delivery times by delivery day and by delivery hour. For
   each group it takes the third quartile (and, per hour, the count of
   recorded times), then smooths the quartile series with an exponentially
   weighted moving average (alpha 0.3, `adjust=False`).

Modules, one per concern:

- `Floats` covers float64 values with NaN (`Num`), Python's `<` on them, and
  pandas' `dropna`.
- `Stats` is the quantile pandas uses (linear interpolation between order
  statistics, "type 7"), over exact reals. It also gives the NaN-skipping
  median and third quartile.
- `Smoothing` is pandas' EWMA loop. `Ewm` specifies it and the `Ewma` method
  is the loop itself.
- `Records` holds the delivery rows, the filter window and the filter.
- `Screening` is the Kruskal-Wallis loop over the columns. `Screened`
  specifies it and the `Screen` method is the loop.
- `Pairwise` covers the two-level comparison, the direction rule, the verdict
  sentence and the loop over flagged columns.
- `Aggregation` covers the daily and hourly third-quartile tables and their
  EWMA columns.
- `Dashboard` covers one run of the whole script and the optional
  Kruskal-Wallis lines.
- `Seqs` and `Wrappers` are generic helpers: flat map, subsequence, sums,
  sorted distinct keys, and `Option`.

Several things are parameters of the model rather than modelled:

- The scipy tests. `kruskal` returns `None` when it raises, which ends the
  script.
- The user's widget choices.
- The two-decimal rendering of p-values.

## Model

| member | source | states |
|---|---|---|
| Records.Filter | streamlit_app.py:45-48 | a row is kept iff its order day is within the inclusive date range and its order hour within the inclusive hour range; each row inside the window is kept as many times as it occurs, and rows outside it not at all; the kept rows are a subsequence of the table (order preserved) |
| Records.OutcomesAt | streamlit_app.py:81-82 | a value is among a level's delivery times iff some row with that level in the column has it as its delivery time (NaN included); each value occurs exactly as many times as there are such rows |
| Records.FilterKeepsAll | streamlit_app.py:45-48 | a table whose rows are all inside the window passes unchanged |
| Records.FilterIdempotent | streamlit_app.py:45-48 | filtering twice with the same window equals filtering once |
| Records.FilterEmptyWindow | streamlit_app.py:45-48 | a start date after the end date, or a start hour after the end hour, keeps no row; the filter itself does not fail |
| Screening.Significant | streamlit_app.py:62 | significant iff the p-value is a number strictly below 0.05; NaN and exactly 0.05 are not significant |
| Screening.Groups | streamlit_app.py:59 | one group per level present in the column (rows missing the column are in none); a number is in a level's group iff some row of that level has it as a recorded delivery time, and occurs there exactly as many times as there are such rows; a level whose times are all missing keeps an empty group |
| Floats.RealsCount | streamlit_app.py:59 | `dropna` keeps each number exactly as many times as it occurs |
| Screening.ScreenedResults | streamlit_app.py:58-61 | every tested column has exactly one entry in `results`, holding the test's own result for that column's groups; no entry for an untested column; when the test raises, the loop stops at the first column on which it raises, every column before it having succeeded |
| Screening.ScreenedFlags | streamlit_app.py:62-63 | a column is flagged iff it has a result whose p-value is strictly below 0.05 (exactly 0.05 and NaN are not flagged) |
| Screening.ScreenedOrder | streamlit_app.py:55-63 | the flagged columns appear in the order of `columns_to_test` (a subsequence of it) |
| Screening.RaisedIsFinal | streamlit_app.py:60 | once the test has raised, later columns change nothing |
| Screening.Screen | streamlit_app.py:55-63 | the loop computes the specification `Screened`; without a raise the result keys are exactly the tested columns; flags iff p < 0.05; flagged columns in test order |
| Pairwise.Compare | streamlit_app.py:80-102 | a verdict iff exactly two levels are selected, else the prompt for that column; the verdict holds the rank-sum test of the two levels' delivery times, is significant iff p < 0.05, and says "greater" iff the first median is strictly greater than the second |
| Pairwise.DirectionOf | streamlit_app.py:88 | "greater" iff both medians are numbers and the first is strictly greater than the second; otherwise "less" |
| Pairwise.DirectionTie | streamlit_app.py:88 | equal medians give "less" |
| Pairwise.DirectionEmptyGroup | streamlit_app.py:88 | a group with no recorded time (NaN median) gives "less" |
| Pairwise.DirectionAntisymmetric | streamlit_app.py:88 | "greater" one way implies "less" the other way |
| Pairwise.DirectionOrderFree | streamlit_app.py:88 | the direction depends only on the multiset of each group's values, not on row order |
| Pairwise.DirectionSeparated | streamlit_app.py:88 | when no recorded time of the first level exceeds any of the second (e.g. 10, 12, 14 against 30, 32, 34 minutes), the direction is "less" |
| Pairwise.TailText | streamlit_app.py:91-92 | the " {significance} and {direction}." ending of the verdict sentence; its contract gives the lengths of the four endings, which are all different, so that `VerdictTextDetermines` can tell them apart |
| Pairwise.VerdictHead | streamlit_app.py:92 | the opening of the verdict sentence holds the column after "Wilcoxon test for ", then the first selected level after " between ", then the second after " and " |
| Pairwise.VerdictText | streamlit_app.py:92 | the verdict sentence names the column after its 18-character opening, then the first selected level, then the second, at fixed offsets in that order, and ends with the significance phrase and direction word of its verdict |
| Pairwise.PromptText | streamlit_app.py:102 | the prompt holds its column between a fixed 39-character opening and a fixed 23-character ending |
| Pairwise.PromptTextNamesColumn | streamlit_app.py:102 | two columns with the same prompt are the same column |
| Pairwise.VerdictTextDetermines | streamlit_app.py:91-92 | two verdicts on the same pair and test result that read the same agree on significance and direction |
| Pairwise.ComparePanels | streamlit_app.py:75-102 | one panel per flagged column, in order, each being `Compare` on that column's selection; a verdict exactly where two levels are selected |
| Stats.Quantile | streamlit_app.py:109 | the interpolated quantile of a non-empty sample lies between its minimum and maximum |
| Stats.QuantileOrderFree | streamlit_app.py:109 | the quantile depends only on the multiset of the sample |
| Stats.QuantileHalfIsMedian | streamlit_app.py:88 | the 1/2 quantile is the middle element of the sorted sample for odd sizes and the mean of the two middle ones for even sizes |
| Stats.NanQuantile | streamlit_app.py:109 | the NaN-skipping quantile is a number iff some value is not NaN, and then lies between the least and greatest such value |
| Stats.Median | streamlit_app.py:88 | pandas' median is NaN iff the group has no recorded time, and otherwise lies between its least and greatest recorded time |
| Stats.ThirdQuartile | streamlit_app.py:109 | the 0.75 quantile is NaN iff there is no recorded time, and otherwise lies between the least and greatest one |
| Stats.NanQuantileWithin | streamlit_app.py:88 | when every recorded value lies in [lo, hi], so does the NaN-skipping quantile |
| Stats.NanQuantileOrderFree | streamlit_app.py:109 | the NaN-skipping quantile does not depend on the order of the values |
| Smoothing.Mix | streamlit_app.py:112 | the weighted mean of the previous mean and the new value lies between the two; with the past weighing 0.7 it is 0.3 * value + 0.7 * previous |
| Smoothing.Step | streamlit_app.py:112 | one step of pandas' loop: the mean becomes a number once a number is read; a NaN leaves the mean unchanged and lowers the weight of the past; a value equal to the mean keeps it; after a number the past weighs 1 again |
| Smoothing.Run | streamlit_app.py:112 | the state after the pass: the past keeps a positive weight, and the mean is a number iff some input is a number |
| Smoothing.Ewm | streamlit_app.py:112 | the smoothed series has the input's length |
| Smoothing.EwmAt | streamlit_app.py:112 | entry i of the smoothed series is the loop's mean after reading the first i + 1 values |
| Smoothing.Ewma | streamlit_app.py:112 | the loop over the values (weighted mean and old weight, NaN gaps, equal-value guard) computes `Ewm` |
| Smoothing.RunWithoutNaN | streamlit_app.py:112 | over values without NaN the mean is always a number and the past keeps weight 1 |
| Smoothing.EwmRecurrence | streamlit_app.py:112 | without NaN: same length, e[0] = x[0], and e[i] = 0.3 * x[i] + 0.7 * e[i-1] for every later i |
| Smoothing.RunBounds | streamlit_app.py:112 | the mean is a number iff some number has been read, and then lies between the least and greatest number read |
| Smoothing.EwmBounds | streamlit_app.py:112 | each smoothed entry is NaN exactly until the first number and afterwards lies within the minimum and maximum of the input up to it |
| Aggregation.GroupKeysFacts | streamlit_app.py:132 | the group keys are strictly ascending and are exactly the keys that occur in the table |
| Aggregation.CountAt | streamlit_app.py:134 | a key's count is positive iff some row with that key has a recorded delivery time |
| Aggregation.QuartileAt | streamlit_app.py:133 | a key's third quartile is a number iff its count is positive, and then lies between the group's least and greatest recorded time |
| Aggregation.DailyQuartiles | streamlit_app.py:106-112 | one row per group key, in key order, with that day's third quartile and the EWMA of the quartile column at that position |
| Aggregation.HourlyData | streamlit_app.py:129-138 | one row per group key, in key order, with that hour's third quartile, its count of recorded times and the EWMA of the quartile column at that position |
| Aggregation.DailyDays | streamlit_app.py:106-109 | the days of the daily chart are strictly ascending, each occurs in the table, and every delivery day of the table has a row |
| Aggregation.HourlyHours | streamlit_app.py:129-135 | the hours of the hourly chart are strictly ascending within 0..23 (so at most 24 rows), each occurs in the table, every delivery hour has a row, and no hour is zero-filled |
| Aggregation.HourKeysBounded | streamlit_app.py:129-132 | there are at most 24 hourly groups |
| Aggregation.HourKeysInRange | streamlit_app.py:129 | every hourly key is an hour of the day |
| Aggregation.CountAtAppend | streamlit_app.py:134 | one more row adds one to its own hour's count when its time is recorded, and nothing to other hours |
| Aggregation.CountsEmpty | streamlit_app.py:134 | an empty table counts nothing under any keys |
| Aggregation.CountsAppend | streamlit_app.py:134 | over distinct keys, one more row adds its recorded time once to the total count, exactly when its key is among them |
| Aggregation.CountsTotal | streamlit_app.py:134 | over ascending keys covering every key of the table, the counts sum to the number of recorded delivery times |
| Aggregation.HourlyCountsTotal | streamlit_app.py:132-135 | the hourly counts sum to the number of non-missing delivery times in the filtered table |
| Aggregation.GroupKeysOrderFree | streamlit_app.py:132 | tables with the same rows in any order have the same group keys |
| Aggregation.GroupOrderFree | streamlit_app.py:132-134 | tables with the same rows in any order have the same quartile and count per key |
| Aggregation.DailyOrderFree | streamlit_app.py:106-112 | the daily table, EWMA included, does not depend on the order of the rows |
| Aggregation.HourlyOrderFree | streamlit_app.py:129-138 | the hourly table, EWMA included, does not depend on the order of the rows |
| Dashboard.KruskalLine | streamlit_app.py:71-72 | a Kruskal-Wallis line ends with the phrase of its result's significance and a full stop |
| Dashboard.KruskalLines | streamlit_app.py:69-72 | one line per tested column, in test order, each built from that column's result |
| Dashboard.KruskalLineSignificance | streamlit_app.py:71-72 | two results with the same rendered p-value whose lines read the same agree on significance |
| Dashboard.Render | streamlit_app.py:44-138 | the script stops exactly when the Kruskal-Wallis test raises on some column; otherwise every tested column has a result, the Kruskal lines appear iff the checkbox is set, there is one panel per flagged column as `Compare` gives it, and the charts are `DailyQuartiles` and `HourlyData` of the filtered table |
| Dashboard.EmptyWindowStops | streamlit_app.py:45-60 | when the window keeps no row and `kruskal` raises on fewer than two groups, the screening stops at the first tested column, "Restaurant ID" |
| Dashboard.RenderEmptyWindow | streamlit_app.py:44-60 | under the same conditions a run of the script is `Stopped("Restaurant ID")` |

## Left out

- Loading and caching the CSV (lines 22-27) are not modelled, because they are I/O.
- Parsing timestamps (lines 30, 41-42, 106, 129) is not modelled. Each row
  carries its order day and hour and its delivery day and hour already split
  out. Days are day numbers, not calendar dates.
- The internals of scipy's `kruskal` and `ranksums` are not modelled; both
  are parameters of the model. `kruskal` receives the groups as a map from
  level to values, since its statistic does not depend on the order of the
  groups. It returns `None` where scipy would raise.
- The sidebar widgets (lines 33-38, 51, 76-78) are parameters. This includes
  the multiselect's default of the first two unique levels: each column's
  selection is an arbitrary list of levels.
- The two-decimal rendering `:.2f` of p-values is the parameter `formatP`.
- The HTML wrapper of the verdict (lines 95-99), `st.write`, the page text
  and all plotting (lines 9-19, 114-125 and 140-170) are not modelled, because they are
  presentation.
- Float rounding is not modelled. Numbers are exact reals and NaN is explicit.
  The EWMA recurrence therefore holds exactly, with no tolerance.
- Factor values of any type are represented by their text (`Level`). A row
  without a value for a column stands for a missing factor value: it is in no
  group and never equals a selected level.
- Smoothing.Ewma: does not model the `minp` and `com` parameter plumbing of
  pandas' `ewm`, only the loop that alpha 0.3, `adjust=False` and
  `ignore_na=False` run.
- A row whose "Delivery Date and Time" is missing becomes NaT at lines 106
  and 129 and is left out of both charts, even when its delivery time is
  recorded. A row whose value is present but cannot be parsed makes line 106
  raise, and the script stops after the pairwise panels. The model can
  represent neither: every `Record` has a delivery day and hour. So
  `Aggregation.HourlyCountsTotal` holds of the source only when every row of
  the filtered table has a parseable delivery timestamp.
- In these cases the model follows the code:
  - With fewer than two groups (for instance after a filter that keeps no
    row), scipy's `kruskal` raises and the script stops. `Screening.Screen`
    and `Dashboard.Render` return the column at which it stopped. For a
    window that keeps no row this is the first tested column
    (`Dashboard.EmptyWindowStops`).
  - A level whose delivery times are all missing stays in the grouping as an
    empty group and is passed to `kruskal` as such.
  - A selected level with no recorded time still goes to `ranksums`. Its
    NaN median gives the direction "less".
