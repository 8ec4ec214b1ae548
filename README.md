# Daily sales revenue pipeline — Dafny model

This project models the Airflow DAG `daily_sales_revenue_analysis`. The DAG
extracts order lines from a database and sums revenue per sale date. It then
answers one fixed question, "what was the revenue on 1996-08-08?", and plots
the daily series. It has four tasks:

- `fetch_order_data` saves the joined order lines (the raw sales file).
- `process_daily_revenue` computes `quantity * price` per line and groups by
  `sale_date` to get the daily series. It saves that series, then saves the
  point answer for the target date: the day's total, or the literal `0` when
  the date has no rows.
- `plot_daily_revenue` always saves the base chart. It saves an annotated
  chart only when the series has a row for the target date.
- `display_final_answer` echoes the saved answer, or 0 when the answer file
  is missing.

The dependency edges are `fetch >> process >> [plot, display]`.

Files:

- `dates.dfy` (module `DateOrder`): the string order that the group-by uses to
  sort its keys. Sale dates reach the aggregation as text read back from CSV.
- `revenue.dfy` (module `Revenue`): line items, the recursive group-by-date
  sum (`DailySeries`), the first-match lookup (`FindDate`), the point answer
  (`TargetAnswer`), and their properties. The properties are stated against
  reference sums taken directly over the input rows (`DateRevenue`,
  `GrandTotal`, `SaleDates`).
- `pipeline.dfy` (module `Pipeline`): class `Workspace`. It has one `Option`
  field per file at its fixed path, and one method per task. A method fails
  with `DataNotFound` when its input file is missing. The module also holds
  the task graph (`Upstream`, `IsSchedule`) and one DAG run (`RunDag`) over
  any schedule the graph allows.

Money is an exact integer number of cents. Artifacts are abstract values,
not bytes.

Three behaviours of the code are easy to miss, and the model keeps them as
written:

- The plotting task does not re-sort the series before plotting. It plots
  the rows in file order.
- The plotting task does not read the point-answer file. It looks the target
  date up in the series again.
- When the target date is absent, the plotting task does not delete an
  annotated chart left by an earlier run. `PlotDailyRevenue` leaves that
  field unchanged.

## Model

| member | source | states |
|---|---|---|
| `DateOrder.LessIrreflexive` | dags/daily_sales_revenue_dag.py:43 | the key order used by the group-by sort never puts a date before itself |
| `DateOrder.LessAsymmetric` | dags/daily_sales_revenue_dag.py:43 | if date a sorts before b, then b does not sort before a |
| `DateOrder.LessTransitive` | dags/daily_sales_revenue_dag.py:43 | the key order is transitive |
| `DateOrder.LessTotal` | dags/daily_sales_revenue_dag.py:43 | any two different dates are ordered one way or the other, so sorting the keys is well defined |
| `Revenue.AddToGroupDates` | dags/daily_sales_revenue_dag.py:43 | folding one row into the groups makes its date a key and keeps every other key; no other key appears |
| `Revenue.AddToGroupTotals` | dags/daily_sales_revenue_dag.py:41-43 | folding one row in raises its date's total by that row's revenue, leaves every other date's total alone, and raises the grand total by the same amount |
| `Revenue.AddToGroupSorted` | dags/daily_sales_revenue_dag.py:43 | folding one row in keeps the keys strictly ascending; the series grows by one row exactly when the date was not yet a key |
| `Revenue.DailySeries` | dags/daily_sales_revenue_dag.py:41-43 | the group-by result is strictly ascending by date; its dates are exactly the dates of the input rows (no gap filling); each date's total is the sum of quantity * price over the rows of that date; the totals add up to the grand total of all rows; it has at most as many rows as the input and is empty exactly when the input is empty |
| `Revenue.SortedDatesAreUnique` | dags/daily_sales_revenue_dag.py:43 | no date occurs twice in the daily series |
| `Revenue.FindDatePresence` | dags/daily_sales_revenue_dag.py:48-50 | the filter on `sale_date` finds a row exactly when the date is a key of the series |
| `Revenue.FindDateSpec` | dags/daily_sales_revenue_dag.py:48-51 | in a strictly ascending series, the first matching row holds the date's whole total; with no match that total is 0 |
| `Revenue.FindDateFirst` | dags/daily_sales_revenue_dag.py:48-51 | in a strictly ascending series, looking up row i's date returns row i's total |
| `Revenue.DailyTotalIsDateRevenue` | dags/daily_sales_revenue_dag.py:41-43 | every row of the daily series holds the sum of quantity * price over all input rows with its date |
| `Revenue.TargetAnswerSpec` | dags/daily_sales_revenue_dag.py:47-60 | the saved answer is the 1996-08-08 total when some input row has that date, and otherwise the sentinel `0` |
| `Revenue.DateRevenueNonNegative` | dags/daily_sales_revenue_dag.py:41-43 | with non-negative prices and quantities, the revenue of any date is non-negative |
| `Revenue.DailyTotalsNonNegative` | dags/daily_sales_revenue_dag.py:41-43 | with non-negative prices and quantities, every daily total is non-negative |
| `Revenue.TwoDayExample` | dags/daily_sales_revenue_dag.py:39-60 | input lines (1996-08-08, 10.00 x 3), (1996-08-08, 5.00 x 2) and (1996-08-09, 10.00 x 1) give the series [(1996-08-08, 40.00), (1996-08-09, 10.00)] and the answer 40.00 |
| `Revenue.EmptyExample` | dags/daily_sales_revenue_dag.py:39-60 | an empty extraction gives an empty series and the sentinel answer |
| `Pipeline.Workspace.FetchOrderData` | dags/daily_sales_revenue_dag.py:17-36 | on success the raw sales file holds the extracted rows; on a source failure it fails with `SourceUnavailable` and writes nothing; no other file changes |
| `Pipeline.Workspace.ProcessDailyRevenue` | dags/daily_sales_revenue_dag.py:39-62 | with no raw file it fails with `DataNotFound` and writes nothing; otherwise it writes both the daily series of the raw rows and the point answer (the target day's revenue or the sentinel); both are functions of the raw file alone, so a second run rewrites the same contents |
| `Pipeline.Workspace.PlotDailyRevenue` | dags/daily_sales_revenue_dag.py:65-91 | with no series file it fails with `DataNotFound`; otherwise it always writes the base chart of the series; it writes the annotated chart, with the target day's value as the callout, exactly when the target date is in the series, and otherwise leaves that file as it was |
| `Pipeline.Workspace.DisplayFinalAnswer` | dags/daily_sales_revenue_dag.py:94-109 | returns the saved amount, returns 0 for the sentinel, and returns 0 without failing when the answer file is missing |
| `Pipeline.Schedules` | dags/daily_sales_revenue_dag.py:141 | the edges `fetch >> process >> [plot, display]` allow exactly two orders: fetch, process, then plot and display in either order |
| `Pipeline.RunDag` | dags/daily_sales_revenue_dag.py:121-141 | under either allowed order, a run with a successful extraction ends with the same files: raw rows, their daily series, the point answer, the base chart, and the annotated chart iff the target date was sold; the display yields the target day's revenue or 0; a failed extraction stops the run and leaves every file as it was |

## Left out

- The SQL three-way join runs inside the database, so it is not modelled.
  Its result is the input of `FetchOrderData`, and `None` stands for a failed
  connection or query. The inner join drops order lines whose product has no
  match; the model does not show this.
- CSV writing and reading are not modelled, and neither is the text of the
  answer file (`str(amount)`, `float(...)`). Each file is an abstract value.
  The answer file is `Total(amount)` or `NoSales` (the literal text `0`), and
  reading it back yields the same number.
- A malformed answer file raises `ValueError` in `display_final_answer`. This
  cannot arise in the model, because files are abstract values.
- Floating point is not modelled. Prices and revenue are exact integer
  cents, so sums are exact and nothing is rounded. The two-decimal console
  formatting is presentation and is not modelled.
- pandas' group-by drops rows whose `sale_date` is missing (NaN). The model
  has no missing dates.
- The plotting task converts dates with `to_datetime` before matching the
  target. The model compares the date strings, which matches the conversion
  for ISO `YYYY-MM-DD` dates.
- Chart rendering is not modelled: figure size, markers, axes, the
  annotation arrow and resolution. A chart is the series it plots plus an
  optional callout value.
- Scheduler behaviour is not modelled: DAG construction, the daily schedule,
  catchup, retries and retry delay. Only the dependency edges are kept,
  together with the rule that a task runs only after its upstream tasks
  succeeded.
- Console output (`print`) is not modelled.
