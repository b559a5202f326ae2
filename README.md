# Sales summary of the e-commerce dashboard, in Dafny

The dashboard (`ecommerce_dashboard.py`) fetches a table of transactions and turns it into the series its chart draws. This project models that pipeline:

1. keep the rows whose `TYPE` is `'Sale'`;
2. convert their `DATE` with `pd.to_datetime`, which raises on a date it cannot convert, and derive `Year`, `Month` and `Day`;
3. keep the rows whose year, month and day are all selected in the sidebar (the defaults are every year among the sales, months 1..12 and days 1..31);
4. `groupby('DATE')` with `total_sales` (sum of `AMOUNT`) and `num_orders` (count of `AMOUNT`), then `reset_index()`. This gives one row per date, in ascending date order.

Modules:

- `Calendar` (calendar.dfy): `Date` triples, the Gregorian calendar, the range of whole days a nanosecond pandas timestamp can hold (1677-09-22 to 2262-04-11), the lexicographic date order, and a day ordinal. The lexicographic order is proved to be the chronological order.
- `Sales` (sales.dfy): `Record` (type, date, integer amount), `Selection` (three sets), the type filter, the selection filter, and the sidebar's options and defaults.
- `GroupBy` (groupby.dfy): the group-by. It is computed by inserting records one at a time into a date-sorted table. It is proved against reference per-date sums and counts computed directly from the records.
- `Dashboard` (dashboard.dfy): the whole pipeline `Summarize`. Its error path models the failing date conversion. The module also holds the properties of the summary and the worked examples.

Two details follow the code rather than a plain reading of what the dashboard is for:

- The default year selection comes from the years of the `'Sale'` rows only (line 37 reads `sales_data`), not from every row of the table.
- Dates are converted after the type filter (line 26 runs on `sales_data`). So an unconvertible date fails the run only when it is on a `'Sale'` row; on any other row it is never looked at.

## Model

| member | source | states |
|---|---|---|
| `Sales.SalesOnly` | ecommerce_dashboard.py:23 | a row is kept exactly when it is in the input and its `TYPE` equals `'Sale'`; the result is no longer than the input |
| `Sales.SalesOnlyAppend` | ecommerce_dashboard.py:23 | the type filter of a concatenation is the concatenation of the filtered parts |
| `Dashboard.ToDatetime` | ecommerce_dashboard.py:26 | the conversion succeeds exactly when every sale date is a valid timestamp, and then leaves the rows unchanged; on failure the error names the date of a row that does not convert |
| `Calendar.DaysInMonth` | ecommerce_dashboard.py:26 | a month has 28 to 31 days; February has 29 exactly in leap years, and the other months have at least 30 |
| `Calendar.DaysInYear` | ecommerce_dashboard.py:26 | a year has 365 or 366 days, 366 exactly when it is a leap year |
| `Calendar.YearLength` | ecommerce_dashboard.py:26 | the twelve month lengths add up to the length of the year |
| `Calendar.ValidComponents` | ecommerce_dashboard.py:29-31 | the derived `Month` of a valid date is in 1..12, its `Day` in 1..31, and its `Year` in 1677..2262 |
| `Sales.YearOptions` | ecommerce_dashboard.py:37-38 | the year options are exactly the years that occur among the sale rows |
| `Sales.Range` | ecommerce_dashboard.py:41-45 | `range(lo, hi)` holds exactly the integers `lo <= x < hi`; these are the month options 1..12 and the day options 1..31 |
| `Sales.FilterBySelection` | ecommerce_dashboard.py:49-53 | a row is kept exactly when its year, its month and its day are all selected (conjunction, not disjunction); the result is no longer than the input |
| `Sales.KeepsAllSelected` | ecommerce_dashboard.py:49-53 | when every row's date is valid and the selection holds every row's year and all of months 1..12 and days 1..31, the filter returns its input unchanged (same order, duplicates kept) |
| `Sales.DefaultSelectionKeepsAll` | ecommerce_dashboard.py:37-53 | when every sale date is valid, the default selection returns the sale rows unchanged (same order, duplicates kept) |
| `Calendar.BeforeIsStrictTotalOrder` | ecommerce_dashboard.py:56-59 | the order in which the summary rows are sorted is irreflexive, asymmetric, transitive and total on distinct dates |
| `Calendar.BeforeIsChronological` | ecommerce_dashboard.py:56-59 | for valid dates that order coincides with the order of the day ordinals, i.e. with time; two valid dates are equal exactly when their ordinals are |
| `GroupBy.AddRecord` | ecommerce_dashboard.py:56-59 | folding one record into a strictly date-ascending table keeps it strictly ascending and adds the record's date to its dates |
| `GroupBy.GroupByDate` | ecommerce_dashboard.py:56-59 | the grouped table is strictly ascending by date, and its dates are exactly the distinct dates of the records |
| `GroupBy.AddRecordAggregates` | ecommerce_dashboard.py:57-58 | folding in a record adds its amount and one order to its own date and changes no other date; the column totals grow by the amount and by one |
| `GroupBy.GroupByDateAggregates` | ecommerce_dashboard.py:56-58 | for every date, the grouped table's `total_sales` and `num_orders` are the sum and the count of the amounts of the records on that date |
| `GroupBy.CountPositive` | ecommerce_dashboard.py:58 | a date has a positive count exactly when some record carries it |
| `GroupBy.GroupByDateRows` | ecommerce_dashboard.py:56-59 | the table has as many rows as distinct dates, and each row holds the sum and the count for its own date, with at least one order |
| `GroupBy.GroupByDateConservation` | ecommerce_dashboard.py:56-59 | the `total_sales` column adds up to the sum of all amounts, and the `num_orders` column to the number of records |
| `Dashboard.Summarize` | ecommerce_dashboard.py:22-59 | the pipeline fails exactly when some `'Sale'` row has a date that is not a valid timestamp, and the error names such a date |
| `Dashboard.EligibleMembership` | ecommerce_dashboard.py:22-53 | a record reaches the group-by exactly when it is a `'Sale'` row whose year, month and day are all selected |
| `Dashboard.EligibleAggregates` | ecommerce_dashboard.py:49-58 | per-date sums and counts over the filtered rows equal the reference sums and counts of the contributing rows of the raw table |
| `Dashboard.SummarizeIsGroupedEligible` | ecommerce_dashboard.py:49-59 | a successful summary is the grouping of the filtered sale rows, all of which have valid dates |
| `Dashboard.SummarizeDates` | ecommerce_dashboard.py:49-59 | the summary has one row per distinct date among the contributing rows and no other rows (no zero-filled dates); every row date is valid and selected |
| `Dashboard.SummarizeOrder` | ecommerce_dashboard.py:56-59 | the summary rows are in strictly ascending date order, and so in strictly ascending chronological order; there are no duplicate dates |
| `Dashboard.SummarizeRowTotals` | ecommerce_dashboard.py:56-59 | each row's `total_sales` and `num_orders` are the sum and the number of amounts of the contributing raw rows on that date; `num_orders` is at least 1 |
| `Dashboard.SummarizeConservation` | ecommerce_dashboard.py:56-59 | the summary's `total_sales` add up to the amounts of all filtered rows, and its `num_orders` to their number |
| `Dashboard.EmptySelection` | ecommerce_dashboard.py:49-59 | deselecting all years, all months or all days gives an empty summary (unless a date fails to convert) |
| `Dashboard.NoSales` | ecommerce_dashboard.py:22-59 | a table without `'Sale'` rows gives an empty summary, whatever the selection |
| `Dashboard.OnlySalesContribute` | ecommerce_dashboard.py:23 | inserting a non-`'Sale'` row anywhere in the table leaves the outcome unchanged |
| `Dashboard.DefaultSelectionSummary` | ecommerce_dashboard.py:37-59 | with the default selection, the filtered rows are exactly the sale rows, and the summary accounts for the amount of every sale and counts every sale |
| `Dashboard.ExampleTypeFilter` | ecommerce_dashboard.py:23 | the type filter drops the refund from the example table |
| `Dashboard.ExampleGrouping` | ecommerce_dashboard.py:56-59 | three example sales on two days group into (2024-01-01, 15, 2) and (2024-01-02, 7, 1) |
| `Dashboard.ExampleDefaultSelection` | ecommerce_dashboard.py:22-59 | the example table with everything selected gives those two rows |
| `Dashboard.ExampleFebruaryOnly` | ecommerce_dashboard.py:49-59 | the example table with only February selected gives an empty summary |
| `Dashboard.ExampleMalformedSale` | ecommerce_dashboard.py:26 | a sale dated 2023-02-29 makes the whole summary fail, whatever the selection |
| `Dashboard.ExampleMalformedRefund` | ecommerce_dashboard.py:23-26 | the same date on a refund row does not make the summary fail |

## Left out

- Fetching the table from the Snowflake session (lines 5, 8, 14, 17) is external I/O. The table is an input sequence of records. A failing data source is not modelled.
- The Streamlit title, headers and sidebar widgets (lines 11, 20, 34, 38, 42, 46) are UI. The selection is a parameter holding any three sets. The widgets restrict the choices to the options, but the model does not impose that; only the options and defaults are modelled.
- Building and rendering the Altair chart (lines 62-91) is left out: it is foreign charting code with no logic to verify.
- Parsing date strings in `pd.to_datetime` (line 26) is left out. Dates arrive as `(year, month, day)` triples. A triple that is not a real calendar day, or lies outside the nanosecond timestamp range, stands for a string that pandas refuses. Missing dates, which pandas turns into `NaT` instead of raising, are not modelled.
- Time of day is not modelled: a date is a calendar day, so the group-by key is the day. If `DATE` held times, pandas would group by exact timestamp instead.
- Floating-point `AMOUNT` arithmetic is not modelled. Nor is pandas skipping missing values in `sum` and `count` (lines 57-58). Amounts are exact integers (for example cents) and always present.
- The in-place column assignments on the DataFrame (lines 26-31) are modelled as a non-mutating derivation: `Year`, `Month` and `Day` are the fields of the date.
