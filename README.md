# GKE FinOps dashboard — a verified model of its decision rules

The GKE FinOps dashboard is a command-line tool. For each Google Cloud project it
looks up the billing account and reads the budgets under it, taking the first
budget's actual spend as a proxy for the current period's cost. It also tallies
the project's GKE clusters by status. The results are shown as a table and can be
exported as CSV or JSON. This Dafny project models the rules under that glue:

- **`GcpCostProcessor`** (`src/gcp_cost_processor.py`):
  - the reporting periods derived from today's date and an optional day count;
  - the budget loop of `get_gcp_cost_data`;
  - the cost line of `process_gcp_costs`;
  - the text blocks of `format_gcp_budget_info` and `format_gke_summary`;
  - the cells `export_to_csv` writes for each record.
- **`GcpClient`** (`src/gcp_client.py`):
  - the billing-account lookup;
  - the cluster-status tally of `get_gke_summary`.
- **`Dashboard`** (`src/main.py`):
  - the record `process_single_project` builds;
  - the loop of `run_dashboard`: records, first success, headers, exports and exit code.
- Supporting modules:
  - `Wrappers` holds `Option`, and `Outcome`: a value returned, a `DefaultCredentialsError` raised, or another exception raised with its message.
  - `Text` covers `str(int)`, `f"{x:.2f}"`, `str.join`, `split('/')[-1]` and string order.
  - `Calendar` covers `datetime.date` arithmetic with the range checks that make it raise `OverflowError`.
  - `Dicts` holds an insertion-ordered `dict` of status counts.
  - `DashboardTypes` holds the records of `src/types.py`.

Each Google client is replaced by the response it gives, its construction included. `date.today()` becomes a `today` parameter.

The model follows the code's own form:

| operation | imperative method | specification function |
|---|---|---|
| budget loop | `ReadBudgets` | `BudgetInfos` |
| budget text | `FormatGcpBudgetInfo` | `BudgetInfoLines` |
| cluster summary text | `FormatGkeSummary` | `GkeSummaryLines` |
| status tally (nested loops, `break`, post-loop insertions) | `GetGkeSummary` | `GkeSummary` |
| driver loop | `RunDashboard` / `CollectRecords` | `Dashboard` |

Each method's `ensures` equates its result with its function, and the lemmas state what the code promises about that function. The pure parts are functions with lemmas of their own: the period computation, `process_gcp_costs`, `get_billing_account_for_project` and `process_single_project`.

## Model

| member | source | states |
|---|---|---|
| `Calendar.DaysInMonth` | src/gcp_cost_processor.py:64-67 | every month has 28 to 31 days |
| `Calendar.DaysBeforeYearClosedForm` | src/gcp_cost_processor.py:58-60 | the day count before a year equals the closed form of the Gregorian leap rule that `date` uses |
| `Calendar.LastDateOrdinal` | src/gcp_cost_processor.py:58-60 | 9999-12-31 is day 3652059 |
| `Calendar.OrdinalRange` | src/gcp_cost_processor.py:58-60 | every representable date has an ordinal between 1 and 3652059 |
| `Calendar.PrevDay` | src/gcp_cost_processor.py:59 | the previous day exists exactly when the date is not 0001-01-01, and its ordinal is one less |
| `Calendar.NextDay` | src/gcp_cost_processor.py:58 | the next day exists exactly when the date is not 9999-12-31, and its ordinal is one more |
| `Calendar.AddDaysOrdinal` | src/gcp_cost_processor.py:58-60 | `d + timedelta(days=n)` succeeds exactly when the target ordinal is in range, and then moves the ordinal by exactly `n` |
| `Calendar.SubtractDays` | src/gcp_cost_processor.py:58-60 | `d - timedelta(days=k)` gives a date exactly when the target ordinal is in range, and that date's ordinal is `k` less |
| `Calendar.DayBeforeFirst` | src/gcp_cost_processor.py:66 | the day before the first of a month is the last day of the previous month |
| `Calendar.FirstOfMonth` | src/gcp_cost_processor.py:64 | `replace(day=1)` keeps year and month, sets day 1, and moves the ordinal back by `day - 1` |
| `Calendar.IsoFormat` | src/gcp_cost_processor.py:131-134 | `isoformat()` is ten characters with dashes at positions 4 and 7 |
| `Calendar.IsoFormatRoundTrip` | src/gcp_cost_processor.py:131-134 | reading the four year digits, the two month digits and the two day digits of `isoformat()` back gives the same date |
| `Calendar.IsoFormatInjective` | src/gcp_cost_processor.py:131-134 | two dates have the same `isoformat()` exactly when they are the same date |
| `Calendar.IsoRangeInjective` | src/main.py:245-246 | two `start to end` texts built from `isoformat()` are equal exactly when both starts and both ends are |
| `Calendar.AddDayThenSubtract` | src/gcp_cost_processor.py:58-59 | short of 9999-12-31, adding one day is the next day, and subtracting one day from it gives the start back |
| `Text.NatToStringValue` | src/gcp_cost_processor.py:131-134 | the digits `str(n)` writes read back as `n` |
| `Text.ZeroPadValue` | src/gcp_cost_processor.py:131-134 | zero padding does not change the number a digit string denotes |
| `Text.TwoDigitsValue` | src/gcp_cost_processor.py:131-134 | the two digits of a month or day number below 100 read back as that number |
| `GcpCostProcessor.RollingDays` | src/gcp_cost_processor.py:58-60 | the three subtractions all succeed exactly when today−N, today−N−1 and today−2N−1 are in range, and each result is the days subtracted before the previous one |
| `GcpCostProcessor.RollingWindow` | src/gcp_cost_processor.py:56-62 | a rolling window never raises a credential error; it fails only with the C `int` conversion message, `timedelta`'s range message or the date overflow; on success it gives four valid dates ending today |
| `GcpCostProcessor.MonthWindow` | src/gcp_cost_processor.py:63-69 | month mode never raises a credential error, and on success gives four valid dates ending today |
| `GcpCostProcessor.ComputePeriods` | src/gcp_cost_processor.py:56-69 | whichever mode the truthiness of `time_range` selects, the periods are valid dates ending today |
| `GcpCostProcessor.RollingTooWide` | src/gcp_cost_processor.py:58 | a day count beyond `timedelta`'s limit of 999999999 raises "Python int too large to convert to C int" when it does not fit in a C `int` (−2147483648 to 2147483647), and `timedelta`'s own "days=N; must have magnitude <= 999999999" otherwise |
| `GcpCostProcessor.RollingOutcome` | src/gcp_cost_processor.py:57-60 | a rolling window succeeds exactly when today−N, today−N−1 and today−2N−1 are all representable |
| `GcpCostProcessor.RollingFailureMessage` | src/gcp_cost_processor.py:58-60 | within `timedelta`'s limit every failure is the date overflow |
| `GcpCostProcessor.RollingDates` | src/gcp_cost_processor.py:57-62 | start = today−N, previous end = start−1, previous start = previous end−N, names "Current N days" and "Previous N days" |
| `GcpCostProcessor.RollingPeriodsOrdered` | src/gcp_cost_processor.py:57-60 | for N > 0: previous start < previous end < start < end, with no gap, and each period spans N+1 days |
| `GcpCostProcessor.MonthPeriods` | src/gcp_cost_processor.py:63-69 | month mode fails only in January of year 1, and then with the date overflow; otherwise (`MonthShaped`) start is the 1st of this month, previous end is the last day of the previous month and previous start is its 1st |
| `GcpCostProcessor.MonthWindowFirstMonth` | src/gcp_cost_processor.py:64-66 | in January of year 1 the day before the 1st does not exist, so month mode raises the date overflow |
| `GcpCostProcessor.PreviousMonthEnd` | src/gcp_cost_processor.py:63-69 | outside January of year 1 month mode succeeds with periods of the shape `MonthShaped` describes: the current month from its 1st to today, and the whole previous calendar month |
| `GcpCostProcessor.MonthPeriodsOrdered` | src/gcp_cost_processor.py:64-67 | in month mode previous start ≤ previous end < start ≤ end, with no gap |
| `GcpCostProcessor.RollingMinusOne` | src/gcp_cost_processor.py:57-60 | for `time_range == -1` both periods run from tomorrow back to today: the previous start and end equal the current ones |
| `GcpCostProcessor.PreviousEndDiffers` | src/gcp_cost_processor.py:56-69 | for any other `time_range`, and in month mode, the previous period ends on a day other than today |
| `GcpCostProcessor.PeriodTextsCollide` | src/gcp_cost_processor.py:56-69 | the previous and current `start to end` texts are equal exactly when `time_range` is `-1` |
| `GcpCostProcessor.BudgetName` | src/gcp_cost_processor.py:78 | the display name when non-empty, otherwise the part of the resource name after its last `/` |
| `GcpCostProcessor.ToBudgetInfo` | src/gcp_cost_processor.py:78-97 | the limit comes from the specified amount, else from the last-period amount with the name suffix, else it is 0; the actual is the last-period spend; the forecast is kept exactly when positive |
| `GcpCostProcessor.ReadBudgets` | src/gcp_cost_processor.py:75-102 | one entry per listed budget in listing order, and the cost proxy is the first budget's actual spend, or 0 with no budgets |
| `GcpCostProcessor.GetGcpCostData` | src/gcp_cost_processor.py:40-135 | the method returns or raises exactly what `CostDataOf` specifies: the Budget Service client first, then the periods, then the listing |
| `GcpCostProcessor.CostDataProperties` | src/gcp_cost_processor.py:49-135 | building the Budget Service client at line 49, outside the `try`, raises its error before anything else; with a client it fails only on a date overflow or a credential error while listing; budgets correspond one to one in order; current cost = first budget's actual or 0; previous cost 0; no service costs; names from the periods and all four dates as the periods' `isoformat()` |
| `GcpCostProcessor.CostDataDatesCollide` | src/gcp_cost_processor.py:131-134 | the cost data's previous and current `start to end` texts are equal exactly when `time_range` is `-1` |
| `GcpCostProcessor.ProcessGcpCosts` | src/gcp_cost_processor.py:142-150 | cost strictly above 0.001 gives the one "Total Project Cost (Proxy): $…" line and one tuple; otherwise exactly the sentinel line and no tuple |
| `GcpCostProcessor.LimitText` | src/gcp_cost_processor.py:159 | the limit text is the "N/A …" note exactly when the limit is ≤ 0 |
| `GcpCostProcessor.BudgetBlock` | src/gcp_cost_processor.py:160-164 | a budget gives 3 lines plus 1 with a forecast, starting with its bold name |
| `GcpCostProcessor.BudgetBlockNoBlank` | src/gcp_cost_processor.py:160-164 | no line of a budget's block is blank |
| `GcpCostProcessor.AppendBudget` | src/gcp_cost_processor.py:159-165 | one loop iteration appends the budget's block and one blank line |
| `GcpCostProcessor.FormatGcpBudgetInfo` | src/gcp_cost_processor.py:153-169 | the method returns exactly `BudgetInfoLines` |
| `GcpCostProcessor.SeparatorsAreJoinedBlocks` | src/gcp_cost_processor.py:158-168 | before the `pop`, the lines are the blocks joined by blank lines plus one trailing blank |
| `GcpCostProcessor.JoinedBlocksBlankCount` | src/gcp_cost_processor.py:165-168 | n blocks joined hold exactly n−1 blank lines and end on a non-blank line |
| `GcpCostProcessor.JoinedBlocksStart` | src/gcp_cost_processor.py:160 | the joined blocks start with the first budget's name |
| `GcpCostProcessor.BudgetInfoLayout` | src/gcp_cost_processor.py:153-169 | no budgets give exactly the "No budgets found or accessible." line; n ≥ 1 budgets give the blocks in order with exactly n−1 blank separators, starting with the first name and never ending blank |
| `GcpCostProcessor.FormatGkeSummary` | src/gcp_cost_processor.py:172-201 | the method returns exactly `GkeSummaryLines` |
| `GcpCostProcessor.PositiveEntriesSorted` | src/gcp_cost_processor.py:187-188 | keeping only the positive counts of a sorted list leaves it sorted |
| `GcpCostProcessor.PositiveCountShown` | src/gcp_cost_processor.py:187-190 | a positive count in the tally is among the entries the summary lists |
| `GcpCostProcessor.GkeSummaryShown` | src/gcp_cost_processor.py:172-201 | the lines are one `StatusLine` per shown entry, or exactly the no-clusters line when none is shown, so the ERROR and PERMISSION_DENIED fallbacks are unreachable; the shown entries are the tally's positive entries, each as often as in the tally, in ascending tuple order; with distinct keys the state names strictly ascend, so each state has one line |
| `GcpCostProcessor.ShownStrictlyAscending` | src/gcp_cost_processor.py:187-190 | for a tally with distinct keys the shown state names strictly ascend, so no state is listed twice |
| `GcpCostProcessor.BudgetCell` | src/gcp_cost_processor.py:241-252 | the budget cell is never empty: "No budgets" for no lines or one blank line, otherwise the lines joined by newlines |
| `GcpCostProcessor.ClusterCell` | src/gcp_cost_processor.py:242-253 | the cluster cell is "No clusters" exactly when no count is positive, otherwise the `state: count` text of each entry of `PositiveEntries` joined by newlines; `Dicts.PositiveEntriesOrder` and `Dicts.PositiveEntriesCount` state that these are the positive entries in dict order |
| `GcpCostProcessor.JoinedPairsNotSentinel` | src/gcp_cost_processor.py:242-253 | a join of `state: count` texts is never the "No clusters" sentinel |
| `GcpCostProcessor.CsvRowColumns` | src/gcp_cost_processor.py:248-251 | in the corrected row each period column shows its own period's cost, and the total repeats the current cost |
| `GcpCostProcessor.LookupLast` | src/gcp_cost_processor.py:246-255 | a key of the row's dict literal has the value written last under it |
| `GcpCostProcessor.PeriodHeaderInjective` | src/gcp_cost_processor.py:224-225 | two period headers are equal only when their date texts are |
| `GcpCostProcessor.FixedFieldsDiffer` | src/gcp_cost_processor.py:229-236 | the six header texts are pairwise different, except perhaps the two period headers |
| `GcpCostProcessor.FieldnamesDistinct` | src/gcp_cost_processor.py:224-236 | with different date texts all six header texts differ |
| `GcpCostProcessor.WriteRowDistinct` | src/gcp_cost_processor.py:246-255 | a dict literal with distinct keys gives every value back under its own key |
| `GcpCostProcessor.WriteRowFixed` | src/gcp_cost_processor.py:246-255 | when only keys 1 and 2 may coincide, keys 0, 3, 4 and 5 give back their own values |
| `GcpCostProcessor.CsvRowFixedColumns` | src/gcp_cost_processor.py:239-255 | whatever the dates, the written row has the project id, the current cost as the total, the budget cell and the cluster cell |
| `GcpCostProcessor.CsvRowDistinctHeaders` | src/gcp_cost_processor.py:224-255 | with different date texts the written row is exactly the intended six cells |
| `GcpCostProcessor.WriteRowCollision` | src/gcp_cost_processor.py:246-255 | when keys 1 and 2 coincide, both columns show the later value |
| `GcpCostProcessor.CsvRowCollision` | src/gcp_cost_processor.py:246-255 | with equal date texts both period columns show the current cost |
| `GcpCostProcessor.CsvRowCollisionDiffers` | src/gcp_cost_processor.py:246-255 | when the two costs print differently, the written row differs from the intended one |
| `GcpCostProcessor.CsvRowCollisionExample` | src/gcp_cost_processor.py:246-255 | a record with previous cost 0 and current cost 12.5 under "N/A to N/A" headers shows "$12.50" in the previous-period column |
| `GcpCostProcessor.CsvTable` | src/gcp_cost_processor.py:229-255 | the file `export_to_csv` writes: the header row, then for each record in order the row as written, with the dict literal's later key winning |
| `GcpCostProcessor.CorrectedCsvTable` | src/gcp_cost_processor.py:229-255 | the intended file: the header row, then each record's six intended cells |
| `GcpCostProcessor.CsvTablesAgree` | src/gcp_cost_processor.py:224-255 | with different date texts the file as written is the intended file |
| `GcpCostProcessor.CsvTableCollision` | src/gcp_cost_processor.py:246-255 | with equal date texts every row of the file as written shows the current cost in both period columns |
| `GcpClient.GetBillingAccountForProject` | src/gcp_client.py:29-53 | the account name exactly when billing is enabled; `None` for disabled, not found, permission denied and any other error; only the credential error is raised again |
| `GcpClient.LocationsToCheck` | src/gcp_client.py:81 | no locations or an empty list means the wildcard `-` alone; otherwise the given list |
| `GcpClient.AddMissing` | src/gcp_client.py:121-122 | the key becomes present, no count changes, the existing entries keep their order, and distinct keys and non-negative counts are preserved |
| `GcpClient.Normalize` | src/gcp_client.py:120-122 | RUNNING and STOPPED are present afterwards, no existing count is overwritten, and only those two keys can be added, after the existing ones |
| `GcpClient.CountClusters` | src/gcp_client.py:87-90 | the inner loop computes `AddStatuses` |
| `GcpClient.GetGkeSummary` | src/gcp_client.py:73-124 | the method returns or raises exactly `GkeSummary` |
| `GcpClient.AddStatusesCount` | src/gcp_client.py:86-90 | each listed cluster adds exactly 1 to its own status, and nothing else changes |
| `GcpClient.Examined` | src/gcp_client.py:83-103 | the locations examined are a prefix of those to check |
| `GcpClient.ScanCounts` | src/gcp_client.py:83-107 | every status count is the sum of what the examined locations contribute: their clusters, 1 ERROR per other error, 1 PERMISSION_DENIED for a denied wildcard, nothing for not-found or a denied named location |
| `GcpClient.ExaminedAll` | src/gcp_client.py:91-107 | without a denied wildcard every location is examined |
| `GcpClient.WildcardDenialStops` | src/gcp_client.py:95-101 | once the wildcard is denied, no later location affects the tally |
| `GcpClient.AddStatusesInvariant` | src/gcp_client.py:87-90 | counting clusters keeps the keys distinct and the counts non-negative |
| `GcpClient.ScanInvariant` | src/gcp_client.py:83-107 | the location loop keeps the keys distinct and the counts non-negative |
| `GcpClient.GkeSummaryProperties` | src/gcp_client.py:73-124 | only a credential error at client construction propagates; otherwise the tally has RUNNING and STOPPED, distinct keys and non-negative counts; a construction failure gives ERROR = 1 and nothing else positive; with a client every count is the examined locations' contribution |
| `Dicts.Get` | src/gcp_cost_processor.py:194-196 | `d.get(k, 0)` is 0 for a missing key |
| `Dicts.GetMember` | src/gcp_cost_processor.py:187-196 | a present key's `get` value is an entry of the dict |
| `Dicts.Set` | src/gcp_client.py:121-122 | assigning a missing key appends it, and assigning a present one keeps the length |
| `Dicts.SetGet` | src/gcp_client.py:121-122 | after `d[k] = v`, `k` maps to `v` and every other key keeps its value |
| `Dicts.SetKeys` | src/gcp_client.py:121-122 | after `d[k] = v` the keys keep their positions, and the key set gains `k` |
| `Dicts.SetDistinct` | src/gcp_client.py:121-122 | assignment keeps the keys distinct |
| `Dicts.Inc` | src/gcp_client.py:90 | `d[k] += 1` on a `defaultdict(int)` raises `k`'s count by one from 0 if missing, and leaves every other count alone |
| `Dicts.IncNonNegative` | src/gcp_client.py:90 | incrementing keeps counts non-negative |
| `Dicts.PositiveEntries` | src/gcp_cost_processor.py:243 | the kept entries are exactly those with a positive count |
| `Dicts.PositiveEntriesCount` | src/gcp_cost_processor.py:243 | each positive entry is kept as often as it occurs, and no other entry is kept |
| `Dicts.PositiveEntriesOrder` | src/gcp_cost_processor.py:243 | two positive entries keep their relative order |
| `Dicts.DistinctKeysSubMultiset` | src/gcp_cost_processor.py:243 | a sub-multiset of the entries of a dict with distinct keys has distinct keys |
| `Dicts.PositiveEntriesDistinct` | src/gcp_cost_processor.py:243 | filtering a dict with distinct keys leaves the keys distinct |
| `Dicts.SortEntries` | src/gcp_cost_processor.py:187 | `sorted(d.items())` is a permutation of the items |
| `Dicts.SortEntriesSorted` | src/gcp_cost_processor.py:187 | `sorted(d.items())` is in ascending tuple order |
| `Dicts.SortedKeysAscend` | src/gcp_cost_processor.py:187 | in ascending tuple order the state names ascend |
| `Text.StrLessTotal` | src/gcp_cost_processor.py:187 | two different strings are ordered one way or the other |
| `Text.StrLessTransitive` | src/gcp_cost_processor.py:187 | string order is transitive |
| `Text.JoinEmpty` | src/gcp_cost_processor.py:241-252 | a newline join is empty exactly when nothing, or a single empty string, was joined |
| `Text.LastSegment` | src/gcp_cost_processor.py:78 | `split('/')[-1]` is a suffix of the name without `/`, preceded by a `/` when shorter than the name |
| `Text.IntToString` | src/gcp_cost_processor.py:61-62 | `str(n)` is non-empty and starts with `-` exactly when `n` is negative |
| `Text.DollarsTwelveFifty` | src/gcp_cost_processor.py:249-251 | `f"${12.5:.2f}"` is "$12.50" |
| `Dashboard.ProcessSingleProjectRecord` | src/main.py:34-118 | the record always carries the project id and is a success exactly when nothing was raised; a credential error gives the fixed auth record, another exception the generic one with `error = str(e)`; every failure has zeros, an empty tally, default names and "N/A" dates |
| `Dashboard.CredentialErrorRecord` | src/main.py:91-104 | a credential error is raised in the `try` exactly when the billing lookup raises one, or the project has a billing account and `get_gcp_cost_data` raises one, or the cluster client raises one after the billing lookup and cost data succeeded; it then gives the auth-error record |
| `Dashboard.BudgetsClientRecord` | src/main.py:91-104 | with a billing account, a credential error building the Budget Service client gives the auth-error record, and any other error the generic record with its message |
| `Dashboard.SuccessDatesCollide` | src/main.py:245-246 | a successful record's previous and current `start to end` texts are equal exactly when the project has no billing account or `time_range` is `-1` |
| `Dashboard.NoBillingRecord` | src/main.py:44-81 | with no billing account the record succeeds with zero costs, the no-cost line, "No budgets found or accessible." and the fetched tally |
| `Dashboard.BillingRecord` | src/main.py:55-89 | with a billing account the record is a success for the project: the cost data's current cost and previous cost 0, the cost line and tuples of `process_gcp_costs`, the budget lines, the fetched tally and its formatted lines, both period names and all four dates |
| `Dashboard.FirstSuccessIndex` | src/main.py:208-209 | the index of the first successful record, or the length when none succeeded |
| `Dashboard.FirstSuccessAppend` | src/main.py:207-209 | appending a record keeps the first success, or makes the new record the first when it succeeds |
| `Dashboard.RecordsStep` | src/main.py:204-226 | each iteration appends the project's record; on an escaping credential error that completes the records and the run aborts |
| `Dashboard.CollectRecords` | src/main.py:203-239 | the loop collects `Records`, remembers `FirstSuccess`, and flags an auth error exactly when one escaped |
| `Dashboard.ExportReports` | src/main.py:269-275 | the export loop produces `ExportsOf` |
| `Dashboard.RunDashboard` | src/main.py:186-278 | the method returns exactly `Dashboard` |
| `Dashboard.RecordsOrder` | src/main.py:204-207 | records follow the projects in order, one per attempted project |
| `Dashboard.RecordsStop` | src/main.py:210-226 | only the last attempted project can have raised a credential error; the run aborts exactly when it did; without an abort every project is attempted |
| `Dashboard.DashboardExitCode` | src/main.py:278 | the exit code is 1 exactly when there are no projects or a credential error escaped, 0 otherwise |
| `Dashboard.EmptyProjects` | src/main.py:193-196 | no projects gives exit code 1 before anything is attempted |
| `Dashboard.UnexpectedErrorContinues` | src/main.py:227-239 | another escaping exception gives the unexpected-error record and the loop goes on |
| `Dashboard.DashboardHeaders` | src/main.py:241-252 | headers are the first successful record's names and `start to end` dates, or the defaults when none succeeded |
| `Dashboard.HeaderDatesCollide` | src/main.py:241-252 | when no record succeeded, or the first success has matching date texts, both header dates are equal and every row of the CSV as written shows the current cost in both period columns |
| `Dashboard.ExportsKinds` | src/main.py:269-275 | each report is the CSV file as written (`CsvTable`) or the JSON dump, at most one per requested type |
| `Dashboard.ExportsEmpty` | src/main.py:269-275 | no report is written exactly when no requested type is `csv` or `json` |
| `Dashboard.DashboardExports` | src/main.py:262-275 | reports are written only with a report name and at least one type, and then are those of `ExportsOf`, whose CSV report is the file as written (`ExportsKinds`) |
| `Dashboard.CorrectedSameRecord` | src/main.py:210-223 | letting the credential error escape changes no record, because the loop builds the same auth-error record |
| `Dashboard.AsWrittenNeverAborts` | src/main.py:91-104 | as written, no credential error escapes `process_single_project`: every project is attempted and the exit code is 0 |
| `Dashboard.AsWrittenAuthFailureExitsZero` | src/main.py:278 | with every billing lookup failing for want of credentials, every project gets the auth record and the exit code is still 0 |
| `Dashboard.CorrectedAuthFailureAborts` | src/main.py:210-226 | corrected, a credential failure at the first project stops the run there with exit code 1 |

## Left out

- The Google clients (`billing_v1`, `budgets_v1`, `container_v1`) are left out: each is replaced by the response it gives (`BillingResponse`; a `ClientResponse` for building the Budget Service client and a `BudgetListing` for its listing; a `ClientResponse` for the cluster client and `ClusterApi` for its listings).
- `GcpClient.GkeSummary` takes the cluster listings as `ClusterApi`, a function of the location, so a location listed twice gets the same response both times, where the real service may answer differently on the second call. `Dashboard.Dashboard` likewise sees each project through `ProjectCall`, a function of the project id.
- `Dashboard.AsWrittenCall` and `Dashboard.CorrectedCall` pass one `today` to every project. The source calls `date.today()` once per project (src/gcp_cost_processor.py:55), so a run that crosses midnight, where later projects get later dates, is not modelled.
- `Dashboard.AsWrittenCall` and `Dashboard.CorrectedCall` also take the Google responses as a function `string -> ProjectEnv` of the project id, so a project listed twice gets the same responses both times.
- Budget listing is modelled as the budgets iterated before the listing ended, plus the exception that ended it, if any. So a paging error keeps the earlier budgets, as the `try` around the loop does.
- `_money_to_float` is left out: Python's `float` is modelled as `real`, and an amount is `Some(value)` when its message is set.
- Dollar formatting (`Text.Dollars`): rounds the exact real value half to even. Python rounds the binary double, which is not modelled.
- `date.today()` becomes the `today` parameter.
- The export timestamp (`datetime.now()`) is left out.
- All console output is left out: `console.print`, `console.log`, the `track` progress bar, and the rich table of `create_display_table` / `add_project_to_table`.
- File output is left out: `os.makedirs`, the file names, the `--dir` argument, CSV quoting, JSON serialisation, and the paths the export functions return.
- An export is represented by its content: the CSV table of strings, or the records themselves.
- The `except` clauses of the export functions are left out, since they only guard file I/O.
- `src/cli.py` (argument parsing and banner) is left out. `Args` carries the parsed values, with an empty report name or type list standing for `None`.
- The placeholder functions `get_gcp_projects`, `get_all_locations` and `get_accessible_locations` are left out because they return constants.
- `Dashboard.FailureRecord` writes both costs as `0.0`, where the failure dicts write the integer `0`. The difference is only visible in the JSON dump, which is not modelled.
- `Dashboard.BillingRecord` and `GcpCostProcessor.CostDataOf`: `cost_data.get(key, default)` in the success record is modelled as a plain field read. Every key is always present, so the defaults never apply.
- The cluster status enum: each cluster's status is given as its enum name string, so `Cluster.Status(...).name` is not modelled.
- A credential error from `list_clusters` at one location is not modelled separately. It is an `Exception`, so it is caught by the per-location handler and counted as ERROR (`LocationOtherError`).
- `GcpCostProcessor.RollingPeriodsOrdered`: holds for N > 0 only. For N < 0 the code accepts the value and the periods run backwards; `RollingDates` still describes them.
- The date type is restricted (`Calendar.ValidDate`) to the days Python's `date` can represent, as the source's `date` values always are.

## Findings

| source | as written | input that shows it | evidently intended | confidence | as-written member | corrected member |
|---|---|---|---|---|---|---|
| src/gcp_cost_processor.py:246-255 | the CSV row is a dict literal keyed by the header texts; when both period headers are the same text, the current-period entry overwrites the previous-period one, and the previous-period column shows the current cost | a record with previous cost 0.0 and current cost 12.5, with no billing account on the first successful project so both dates are "N/A to N/A": the previous-period column reads "$12.50" | each column shows its own period's cost whatever the header texts | not executed | `GcpCostProcessor.CsvRowCollisionExample` | `GcpCostProcessor.CsvRowColumns` |
| src/main.py:91-104 | `process_single_project` catches `DefaultCredentialsError` itself and returns a record, so the abort branch of `run_dashboard` (src/main.py:210-226) never runs and the exit code is 0 even when authentication fails for every project | any project list where every billing lookup raises `DefaultCredentialsError`: every project gets the auth-error record, and the run exits 0 | an authentication failure stops the run with exit code 1, as the comment at src/main.py:277 says | not executed | `Dashboard.AsWrittenAuthFailureExitsZero` | `Dashboard.CorrectedAuthFailureAborts` |

The corrected CSV row is `GcpCostProcessor.CsvRowCells`, one cell per column in header order, and `CorrectedCsvTable` is the file made of these rows. `CsvTable`, and through it the exports of `Dashboard`, is the file as written. `CsvTablesAgree` proves that the two files are equal whenever the two date texts differ, and `CsvTableCollision` shows what every row of the file as written holds when they are equal.

The two header dates coincide in three cases:
- no project succeeded;
- the first success is a project without a billing account, whose dates are all "N/A";
- the run used `--time-range -1`, which `src/cli.py:74-78` accepts as any `int`: both periods then run from tomorrow to today.

`Dashboard.SuccessDatesCollide` proves, for a successful record, that the last two are the only cases. `Dashboard.HeaderDatesCollide` proves that in each case every row shows the current cost in both period columns.

The corrected `process_single_project` (`Dashboard.CorrectedOutcome`) lets the credential error escape to the loop. The loop builds the same auth-error record for that project (`CorrectedSameRecord`) and then stops, at src/main.py:224-225. Projects after it therefore get no record, and the exit code becomes 1 (`CorrectedAuthFailureAborts`).
