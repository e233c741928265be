# A Dafny model of the UVA COVID-19 testing communicator

The communicator collects COVID-19 test samples from two feeds: the kiosk tablets through
Firebase, and the lab's Ivy CSV files. It reconciles them into one Sample table keyed by
barcode, and emails or texts each student a link to their result. It also serves dashboards
that count samples by day, hour, weekday and rolling window. This project models that core
and proves what it computes:

- **Records** (`sample.dfy`, `sample_service.dfy`). `Sample.merge` fills the stored row's gaps
  from an incoming record. `add_or_update_records` upserts by barcode. The session
  (`database.dfy`) holds the row objects themselves in a `map<string, Sample>`, and the loop
  mutates them in place.
- **Source adapters** (`test_event.dfy`, `ivy_service.dfy`, `firebase_service.dfy`). A
  dictionary becomes a record or, when a key it needs is missing, an error.
- **Filters and aggregation** (`filters.dfy`, `graph_helpers.dfy`, `graph_service.dfy`,
  `charts.dfy`):
  - the `GraphService` filter set, with `update_search_filters` and `apply_filters`;
  - `dow_count` and `daterange`;
  - the four grouped count queries and the charts built from them, stated entry by entry in
    terms of the selected rows.
- **Dashboard API** (`dashboard.dfy`): parsing query parameters into a filter dictionary,
  `form_graph_response`, the eight top-bar totals, and the paged sample listing.
- **Index page** (`index_view.dfy`): the stored filter's search, the grouping of the matching
  samples by location code and station code, the weekday tally and the headline counts.
- **Notifications** (`notification_service.dfy`, `admin.dfy`):
  - the result link, the SMS text and the reasonable-hour window;
  - what each send records;
  - the email and text passes, which visit every pending sample and skip, send or fail.
- **SSO headers** (`user_service.dfy`): the `Uid` to `X-Remote-Uid` fallback.

Conventions used throughout:

- **Time** is whole minutes since the Sunday midnight 1970-01-04T00:00 (`clock.dfy`). A
  `dt.date` is a day number counted from that Sunday. The hour, the Python weekday
  (Monday = 0), the SQL `dow` (Sunday = 0) and `date2datetime` are then integer arithmetic.
- **SQL queries.** A `count(case when c then 1 end)` column is a count over the selected rows
  of those that satisfy `c`. A `GROUP BY` yields each group once.
- **Python failures.** None is `Option`, and a raised exception is the `Failure` of a
  `Result`. `str.split()`, `str.splitlines()` and `int()` are written out over strings in
  `text.dfy`.
- **External behaviour** enters as function parameters. This covers the calendar parsers
  (`strptime`, `fromisoformat`), the phone-number check, template rendering, the uuid, and
  each transport's outcome. It also covers `last_failure_by_type`, whose definition is not
  part of this model.

The day buckets of the day chart are closed at both ends
(communicator/services/graph_service.py:109-111), so a sample at an interior midnight is
counted in two adjacent buckets (`ChartLaws.InteriorMidnightInTwoBuckets`).

## Model

| member | source | states |
|---|---|---|
| SampleModel.NewRow | communicator/models/sample.py:5-14 | a fresh row has the given barcode, student, date and location, no truthy contact or result, and every flag false |
| SampleModel.Sample.constructor | communicator/models/sample.py:4-14 | the object holds exactly the given column values |
| SampleModel.Sample.Merge | communicator/models/sample.py:16-26 | the object's new row is the fill-gap merge of its old row with the incoming record |
| SampleModel.MergeKeepsIdentity | communicator/models/sample.py:16-26 | barcode, student, date, location, `notified` and the columns merge does not name are never changed |
| SampleModel.MergeFillsGaps | communicator/models/sample.py:17-22 | phone, email and result code take the incoming value exactly when it is truthy, and otherwise keep the stored one |
| SampleModel.MergeNeverErases | communicator/models/sample.py:17-22 | a truthy stored phone, email or result code stays truthy |
| SampleModel.MergeOrsFlags | communicator/models/sample.py:23-26 | `in_firebase` and `in_ivy` become the OR of the stored and incoming flags |
| SampleModel.MergeIdempotent | communicator/models/sample.py:16-26 | merging the same record twice gives the same row as merging it once |
| SampleModel.MergeSelf | communicator/models/sample.py:16-26 | merging a row into itself changes nothing |
| SampleModel.MergeEmptyIsNoop | communicator/models/sample.py:16-26 | a record with no truthy field and no flag set leaves the stored row unchanged |
| SampleModel.MergeCommutes | communicator/models/sample.py:16-26 | two records that agree wherever both are set merge to the same row in either order |
| SampleService.RowsOf | communicator/services/sample_service.py:9 | the batch's rows are the objects' current values, in order |
| SampleService.UpsertAllIsUpsertEach | communicator/services/sample_service.py:9-14 | the batch fold equals upserting the records one after another, left to right |
| SampleService.UpsertExisting | communicator/services/sample_service.py:10-12 | a known barcode keeps the key set and size, and its row becomes the merge, never a second row |
| SampleService.UpsertNew | communicator/services/sample_service.py:13-14 | an unseen barcode is added with the record unchanged, and the table grows by one |
| SampleService.UpsertIdempotent | communicator/services/sample_service.py:9-14 | upserting the same record again changes neither the table nor its size |
| SampleService.UpsertAllKeys | communicator/services/sample_service.py:9-14 | after a batch the keys are the old keys plus every incoming barcode, each once |
| SampleService.UpsertAllUntouched | communicator/services/sample_service.py:8-15 | a stored row whose barcode is not in the batch is left as it was |
| SampleService.UpsertAllStep | communicator/services/sample_service.py:9-14 | each loop step upserts the next record into the table built so far |
| SampleService.AddOrUpdateRecord | communicator/services/sample_service.py:10-14 | the session's table becomes the upsert of the incoming row, and no row object except the new one appears |
| SampleService.AddOrUpdateRecords | communicator/services/sample_service.py:8-15 | the session's table becomes the batch upsert of the incoming rows, taken in order |
| SampleScenario.LoadFirebase | tests/services/test_sample_service.py:34-41 | the four Firebase records give four rows |
| SampleScenario.LoadIvy | tests/services/test_sample_service.py:57-61 | the six Ivy records give six rows |
| SampleScenario.LoadIvyAfterFirebase | tests/services/test_sample_service.py:30-51 | loading Firebase first and then Ivy gives the correlated table |
| SampleScenario.FirebaseIntoIvy | tests/services/test_sample_service.py:63-70 | merging a Firebase record into an Ivy row only sets `in_firebase` |
| SampleScenario.LoadFirebaseAfterIvy | tests/services/test_sample_service.py:54-70 | loading Ivy first and then Firebase gives the same correlated table |
| SampleScenario.CorrelatedKeys | tests/services/test_sample_service.py:51 | the correlated table has seven barcodes |
| SampleScenario.CorrelatedFlags | tests/services/test_sample_service.py:47-50 | six rows are in Ivy, four in Firebase, and exactly the three shared barcodes carry both flags |
| SampleScenario.CorrelationScenario | tests/services/test_sample_service.py:30-70 | either load order gives the same seven rows, with those flag counts |
| TestEvents.Key | communicator/models/test_event.py:5-6 | an event's identity is the pair (student id, test time) |
| TestEvents.SameRowIffSameKey | communicator/models/test_event.py:5-6 | two events share a key exactly when they share a student and a test time |
| TestEvents.FirstMissing | communicator/models/test_event.py:19-24 | None exactly when every column is present, otherwise the first absent column in reading order |
| TestEvents.FromIvyDictComplete | communicator/models/test_event.py:16-26 | a row with all six columns maps each to its field; `ivy_record` stays false because line 25 sets another attribute |
| TestEvents.FromIvyDictMissing | communicator/models/test_event.py:19-24 | the mapping fails exactly when a column is missing, and it names the first missing one (the KeyError) |
| TestEvents.FromIvyDictIgnoresExtra | communicator/models/test_event.py:16-26 | adding a key that is not one of the six columns does not change the result |
| IvyService.ToTestEventRecord | communicator/services/ivy_service.py:19-23 | success exactly when `from_ivy_dict` succeeds, with its record; otherwise CommError with the string code "100" and a title naming a missing column |
| IvyService.TitleNamesColumn | communicator/services/ivy_service.py:23 | the error title contains the missing column's name |
| IvyService.MissingColumnRejected | communicator/services/ivy_service.py:20-23 | any input that lacks a column is rejected |
| FirebaseService.RecordToSample | communicator/services/firebase_service.py:28-36 | for a document whose mapped fields have their column types: success exactly when the four keys are present; barcode, student, date and location come from "id", "barcodeId", "createdAt" and "locationId"; `in_firebase` is set and no contact is; a failure names a missing key |
| FirebaseService.FirebaseMergeKeepsContacts | communicator/services/firebase_service.py:29-36 | merging a mapped Firebase record into a stored row only sets `in_firebase` |
| UserService.Get | communicator/services/user_service.py:28-29 | a header lookup finds a value exactly when some header's name matches ignoring case, and returns that header's value |
| UserService.GetUserInfo | communicator/services/user_service.py:27-34 | uid from a truthy "Uid", else from a truthy "X-Remote-Uid", else CommError 1100 "invalid_sso_credentials" quoting the headers; the display name is always "Cn" |
| UserService.GetIgnoresCase | communicator/services/user_service.py:28 | a header is found whatever the case of its name |
| Clock.HourOf | communicator/services/graph_service.py:85 | the hour of a time is in 0..23 |
| Clock.Weekday | communicator/__init__.py:223 | the Python weekday of a day is in 0..6 |
| Clock.SqlDow | communicator/services/graph_service.py:133 | the SQL day of week of a time is in 0..6 |
| Clock.SundayFirstIndex | communicator/services/graph_service.py:17 | `(1 + weekday) % 7` is the Sunday-first index, the same as SQL `dow` at that day's midnight |
| Clock.DayOfBetweenMidnights | communicator/services/graph_service.py:22-23 | a time falls on day d exactly when it lies from d's midnight up to but excluding the next one |
| GraphHelpers.DowSlot | communicator/services/graph_service.py:17 | the slot a day increments is in 0..6 |
| GraphHelpers.DowCount | communicator/services/graph_service.py:12-19 | the loop returns the table of how many days of [start, end] fall in each Sunday-first slot |
| GraphHelpers.DaysOnTotal | communicator/services/graph_service.py:12-19 | the seven counters add up to the number of days in [start, end], and to 0 when end < start |
| GraphHelpers.DaysOnSplit | communicator/services/graph_service.py:15-18 | the count of a slot over a range is the sum of its counts over two adjacent parts |
| GraphHelpers.SlotStep | communicator/services/graph_service.py:17-18 | the next day's slot is the following slot, wrapping from Saturday to Sunday |
| GraphHelpers.OneWeek | communicator/services/graph_service.py:12-19 | any seven consecutive days give each slot exactly one |
| GraphHelpers.WholeWeeks | communicator/services/graph_service.py:12-19 | n whole weeks give every slot exactly n |
| GraphHelpers.DowSlotIsSqlDow | communicator/services/graph_service.py:128-133 | the slot `dow_count` increments is the SQL `dow` the weekday chart counts by |
| GraphHelpers.Daterange | communicator/services/graph_service.py:26-36 | for a positive step the list is start, start + step, ... up to stop; its length is (stop - start) / step + 1 and it is empty when start > stop; every element is at most stop |
| GraphHelpers.NoProgressWithoutStep | communicator/services/graph_service.py:33-35 | with a step of zero or less the loop never passes stop, so it runs only for a positive step |
| GraphHelpers.RoundHalfEven | communicator/services/graph_service.py:102 | Python's `round` of p/q: the nearest integer, with ties to the even one |
| GraphHelpers.RoundRateNearest | communicator/services/graph_service.py:102 | `round(n/d + .4)` is within one half of n/d + 0.4 |
| GraphHelpers.RoundRateOfMultiple | communicator/services/graph_service.py:102 | an exact multiple k·d is rounded to k |
| GraphHelpers.RoundRateNonNegative | communicator/services/graph_service.py:102 | a count's rate is never negative |
| GraphHelpers.RotateAt | communicator/services/graph_service.py:100 | `counts[o:] + counts[:o]` has the same length and holds entry j + o at position j, wrapping |
| GraphHelpers.RotatePermutes | communicator/services/graph_service.py:100 | the rotation is a permutation of the counts |
| GraphHelpers.HourRotation | communicator/services/graph_service.py:98-100 | after the 6-slot rotation, position j holds raw hour (j + 6) mod 24 |
| Graphs.Tally | communicator/services/graph_service.py:84-85 | a group's count columns are as many as its cases |
| Graphs.Sites | communicator/services/graph_service.py:87-89 | the GROUP BY lists each group once, and a group is listed exactly when some row is in it |
| Graphs.GroupsListed | communicator/services/graph_service.py:92-95 | a group is among the first n result rows' groups exactly when one of those rows has it |
| Graphs.LocationsListed | communicator/services/graph_service.py:92-95 | a location is a key of the chart built so far exactly when one of the rows seen is at it |
| Graphs.GroupLocated | communicator/services/graph_service.py:94-95 | every charted group's location is a key of the chart |
| Graphs.PlaceStep | communicator/services/graph_service.py:92-102 | storing one result row keeps the chart describing the rows seen so far |
| Graphs.ChartOfShape | communicator/services/graph_service.py:92-102 | the loop's chart holds, for each group seen, the rescaled counts of its last result row |
| Graphs.ChartedGroups | communicator/services/graph_service.py:87-101 | a (location, station) entry exists exactly when some selected row is at that station |
| Graphs.ChartLocationsOccupied | communicator/services/graph_service.py:94-101 | no location of a chart has an empty station map |
| Graphs.ChartedLocations | communicator/services/graph_service.py:87-95 | a location is charted exactly when some selected row is at it |
| Graphs.ChartedValue | communicator/services/graph_service.py:99-102 | each entry is the rescaled tally of its group's selected rows |
| Graphs.ResultChartCharted | communicator/services/graph_service.py:87-102 | the chart of a grouped query holds exactly the groups present, each with its rescaled tally |
| Graphs.IntWords | communicator/api/dashboard.py:42 | a number list written back as text has one decimal literal per number |
| Graphs.Completed | communicator/services/graph_service.py:154-166 | how many list steps run before the first one raises: each earlier present key splits, and the step it stops at does not |
| Graphs.ListArgsSet | communicator/services/graph_service.py:155-166 | each list step that ran stores the membership filter of its key's words |
| Graphs.ListArgsKeep | communicator/services/graph_service.py:155-166 | the list steps leave every other key of the filters as it was |
| Graphs.UpdatedListFilters | communicator/services/graph_service.py:155-166 | after the update, each list key that was reached and given holds the membership filter of its split words |
| Graphs.UpdatedDateFilters | communicator/services/graph_service.py:167-176 | once the list steps pass, a given date becomes its bound filter; an absent `include_tests` adds `student_id != 0` and a present one removes it |
| Graphs.UpdatedKeepsOthers | communicator/services/graph_service.py:153-180 | keys the update does not name are untouched; if a list step raises, nothing after it changes |
| Graphs.AppliedAdmits | communicator/services/graph_service.py:48-53 | a row passes the filtered query exactly when it passes the base query and every filter whose key is not skipped |
| Graphs.GroupQuery | communicator/services/graph_service.py:87-89 | one result row per group, each with its group's tally of the selected rows |
| Graphs.DayCases | communicator/services/graph_service.py:107-111 | one bucket per day from start up to the day before end, and none when end ≤ start |
| Graphs.HourCases | communicator/services/graph_service.py:83-85 | twenty-four hour columns |
| Graphs.HourRates | communicator/services/graph_service.py:98-102 | the rotated, rescaled hour vector has 24 entries |
| Graphs.DowCases | communicator/services/graph_service.py:131-133 | seven day-of-week columns |
| Graphs.WeekdayRates | communicator/services/graph_service.py:145-150 | the weekday vector has 7 entries |
| Graphs.SelectedByQuery | communicator/services/graph_service.py:48-53 | the query's rows are the table's rows that pass every applied filter, in table order |
| Graphs.GraphService.constructor | communicator/services/graph_service.py:40-46 | a fresh service searches today to tomorrow, with exactly the two date filters |
| Graphs.GraphService.ApplyFilters | communicator/services/graph_service.py:48-53 | the base query is extended only by stored filters, every filter not skipped is added, and `ignore_dates` skips exactly the keys containing "date" |
| Graphs.GraphService.SetListFilter | communicator/services/graph_service.py:155-166 | a given key whose argument splits stores its membership filter; raising leaves the filters unchanged |
| Graphs.GraphService.SetListFilters | communicator/services/graph_service.py:154-166 | the list steps run in order and stop at the first one that raises |
| Graphs.GraphService.UpdateSearchFilters | communicator/services/graph_service.py:153-180 | the new filters and stored bounds are the update's, with a raise ending it early and leaving the rest |
| Graphs.GraphService.RunQuery | communicator/services/graph_service.py:87-91 | the query returns the rows that pass the applied filters |
| Graphs.GraphService.GetTotalsLastWeek | communicator/services/graph_service.py:55-76 | one entry per location present once the date filters are ignored, holding its counts two weeks back, one week back and in the searched window |
| Graphs.GraphService.GetTotalsByHour | communicator/services/graph_service.py:78-103 | a ZeroDivisionError exactly when the search spans no day and a row is selected; otherwise the hour chart at per-day rates |
| Graphs.GraphService.GetTotalsByDay | communicator/services/graph_service.py:105-124 | the chart of the selected rows' per-day bucket counts |
| Graphs.GraphService.GetTotalsByWeekday | communicator/services/graph_service.py:126-151 | the chart of the selected rows' weekday counts at per-weekday rates |
| Graphs.TotalsByHour | communicator/services/graph_service.py:80-103 | the same as GetTotalsByHour, for given selected rows and bounds |
| Graphs.TotalsByDay | communicator/services/graph_service.py:107-124 | the same as GetTotalsByDay, for given selected rows and bounds |
| Graphs.TotalsByWeekday | communicator/services/graph_service.py:128-151 | the same as GetTotalsByWeekday, for given selected rows and bounds |
| Graphs.WeekdayRow | communicator/services/graph_service.py:144-150 | the inner loop divides a weekday's total by its day count when that is positive, and keeps the total otherwise |
| Graphs.ChartHours | communicator/services/graph_service.py:92-102 | the loop fails on a zero day count exactly when a result row exists, and otherwise stores each group's rotated rates |
| Graphs.HourRescale | communicator/services/graph_service.py:98-102 | the per-day rescaling of 24 counts is the rotation followed by rounding each count over the days |
| Graphs.ChartDays | communicator/services/graph_service.py:118-122 | each group's stored vector is its raw bucket counts |
| Graphs.ChartWeekdays | communicator/services/graph_service.py:128-150 | each group's stored vector is its zero-guarded weekday rates against `dow_count(start, end - 1)` |
| Graphs.SitesEmpty | communicator/services/graph_service.py:87-92 | the grouped query has no rows exactly when no row is selected |
| Graphs.DayBounds | communicator/services/graph_service.py:107-111 | the cases built from `daterange`'s bounds are the buckets [bounds[i], bounds[i+1]] |
| Graphs.TotalsLastWeek | communicator/services/graph_service.py:58-76 | the three window counts of each location present |
| Graphs.LastWeekRows | communicator/services/graph_service.py:58-65 | each result row holds its location's three window counts |
| Graphs.LastWeekKeys | communicator/services/graph_service.py:69-72 | the result's locations are exactly the locations with a selected row |
| Graphs.LastWeekMap | communicator/services/graph_service.py:69-75 | the loop keys one entry per result location, holding that row's three counts |
| Graphs.LastWeekTally | communicator/services/graph_service.py:58-61 | the three count columns are the windows [start-14, end-14], [start-7, end-7] and [start, end], closed at both ends |
| Graphs.LocationsOfSites | communicator/services/graph_service.py:63-65 | grouping by location lists exactly the locations with a row |
| ChartLaws.TallyColumn | communicator/services/graph_service.py:84-85 | a count column is the number of the group's rows whose time meets that column's case |
| ChartLaws.HourChartEntry | communicator/services/graph_service.py:98-102 | every hour vector has 24 entries, and entry j is the rounded per-day rate of the station's rows in raw hour (j + 6) mod 24 |
| ChartLaws.HourTallyEntry | communicator/services/graph_service.py:80-102 | the rescaled hour tally of a station has 24 entries, each the rounded daily rate of its shifted hour |
| ChartLaws.HourRatesAt | communicator/services/graph_service.py:99-102 | entry j of the hour vector is the rounded rate of raw entry (j + 6) mod 24 |
| ChartLaws.HourChartPermutes | communicator/services/graph_service.py:98-100 | the rotated raw counts are a permutation of the raw counts |
| ChartLaws.DayChartEntry | communicator/services/graph_service.py:107-122 | a day vector has one entry per day of the search, and entry i counts the station's rows from day i's midnight to the next one, both included |
| ChartLaws.InteriorMidnightInTwoBuckets | communicator/services/graph_service.py:109-111 | a sample exactly at an interior midnight is counted in both adjacent buckets |
| ChartLaws.InnerInstantInOneBucket | communicator/services/graph_service.py:109-111 | a sample of the search that is not at a midnight is counted in exactly its own day's bucket |
| ChartLaws.WeekdayChartEntry | communicator/services/graph_service.py:128-150 | a weekday vector has 7 entries; entry d is the station's count for SQL dow d divided by how many such days the search has, or that count itself when there are none |
| ChartLaws.WeekdayRescale | communicator/services/graph_service.py:128-150 | the weekday rescaling uses `dow_count(start, end - 1)` |
| ChartLaws.HourColumnsPartition | communicator/services/graph_service.py:83-85 | a station's 24 hour columns add up to its number of rows |
| ChartLaws.WeekdayColumnsPartition | communicator/services/graph_service.py:131-133 | a station's 7 weekday columns add up to its number of rows |
| ChartLaws.ColumnsPartition | communicator/services/graph_service.py:83-85 | columns each of whose rows meets exactly one case add up to the group's size |
| Dashboard.StationSum | communicator/api/dashboard.py:25 | numpy's axis-0 sum of a location's station vectors, or None exactly where the vectors differ in length |
| Dashboard.FormGraphResponse | communicator/api/dashboard.py:19-28 | several locations become one summed vector each; a single location is returned unwrapped; no location gives the empty data |
| Dashboard.ColumnTotalCounts | communicator/api/dashboard.py:25 | summing entry i over the stations counts the location's rows at those stations that meet that entry's case |
| Dashboard.StationsCovered | communicator/api/dashboard.py:24-25 | a location's charted stations cover all of its rows |
| Dashboard.ChartedStations | communicator/api/dashboard.py:24-25 | a charted location has stations, each holding its tally |
| Dashboard.ChartedTotals | communicator/api/dashboard.py:21-25 | a location's summed vector exists, has one entry per case, and entry i counts all the location's rows in that case |
| Dashboard.ParseInts | communicator/api/dashboard.py:42 | the integers exist exactly when every word is an integer literal, and there is one per word |
| Dashboard.ParseParams | communicator/api/dashboard.py:32-44 | the only failure is ValueError |
| Dashboard.ParseParamsFails | communicator/api/dashboard.py:33-42 | parsing fails exactly when a date does not parse or a given location word is not an integer |
| Dashboard.ParsedParams | communicator/api/dashboard.py:32-44 | dates are present exactly when given, the end shifted by the endpoint's days; list keys are present exactly when given, holding the split words or, for locations, their integers; `include_tests` is present exactly when the parameter is "true" |
| Dashboard.BlankParamsIgnored | communicator/api/dashboard.py:37-42 | with `strip`, a whitespace-only parameter adds no key |
| Dashboard.BlankParamsFilterEverything | communicator/api/dashboard.py:57-62 | without `strip`, a non-empty whitespace-only parameter adds an empty list |
| Dashboard.ListParamsDropAllFilters | communicator/api/dashboard.py:37-47 | as written, any list parameter makes `update_search_filters` raise at its first list step, so the filters and both bounds stay as they were |
| Dashboard.ParsedParamsComplete | communicator/api/dashboard.py:37-47 | with lists split element-wise, every list step of the update completes |
| Dashboard.LocationListAdmits | communicator/api/dashboard.py:41-42 | a row passes the location filter of a number list exactly when its location is in the list |
| Dashboard.ListedInts | communicator/api/dashboard.py:42 | a number is in the written-back word list exactly when it is in the number list |
| Dashboard.GetTotalsByDay | communicator/api/dashboard.py:30-48 | a parse failure is returned as is; otherwise the response is the day chart of a fresh service that took the intended parameters, collapsed |
| Dashboard.GetTotalsByWeekday | communicator/api/dashboard.py:50-68 | the same for the weekday chart, where a list counts as given when it is non-empty, without `strip` |
| Dashboard.GetTotalsByHour | communicator/api/dashboard.py:70-87 | the same for the hour chart, including its ZeroDivisionError |
| Dashboard.AsWrittenSearch | communicator/services/graph_service.py:153-175 | as written, parsed parameters with a list leave a fresh service searching its default day alone; without a list the search is the intended one |
| Dashboard.GetTotalsByDayAsWritten | communicator/api/dashboard.py:30-48 | as written: a parse failure is returned as is; with a student, computing-id or location parameter the response is the day chart of today alone, dates and `include_tests` ignored; otherwise the intended chart |
| Dashboard.GetTotalsByWeekdayAsWritten | communicator/api/dashboard.py:50-68 | the same for the weekday chart |
| Dashboard.GetTotalsByHourAsWritten | communicator/api/dashboard.py:70-87 | the same for the hour chart; with a list parameter the one-day search never raises ZeroDivisionError |
| Dashboard.DayTotalsPerLocation | communicator/api/dashboard.py:21-25 | with several locations, a location's day totals have one entry per day, each counting all its rows in that bucket |
| Dashboard.MultipleLocations | communicator/api/dashboard.py:21-25 | a per-location response arises only for more than one location, and has their keys |
| Dashboard.TopbarCases | communicator/api/dashboard.py:195-197 | three window columns |
| Dashboard.GetTopbarData | communicator/api/dashboard.py:181-221 | a parse failure is returned; a missing date is a KeyError; otherwise the eight top-bar entries for the window with the end moved a day later |
| Dashboard.TopbarTotals | communicator/api/dashboard.py:203-220 | the loop's response equals the eight entries: three window counts, four notification counts, and the kit balance |
| Dashboard.SumWindows | communicator/api/dashboard.py:203-207 | the loop adds each count column over the locations |
| Dashboard.TopbarWindows | communicator/api/dashboard.py:195-207 | entries 0, 1 and 2 count the selected rows in the window, in the window a week earlier and in the window two weeks earlier |
| Dashboard.GroupsAddUp | communicator/api/dashboard.py:199-207 | summing a column over the location groups counts every selected row in its case |
| Dashboard.OutcomesAddUp | communicator/api/dashboard.py:208-212 | the four notification entries add up to every email and text attempt dated in the window |
| Dashboard.InsertByModified | communicator/api/dashboard.py:113 | inserting a row adds exactly that row to the multiset |
| Dashboard.InsertOrdered | communicator/api/dashboard.py:113 | inserting into a list ordered by `last_modified` keeps it ordered |
| Dashboard.OrderByModified | communicator/api/dashboard.py:113 | the ordering is a permutation of the rows, sorted by `last_modified` with NULLs last |
| Dashboard.SliceBound | communicator/api/dashboard.py:122 | a Python slice bound is clamped into the list |
| Dashboard.PySlice | communicator/api/dashboard.py:122 | a Python slice is never longer than its list |
| Dashboard.GetSamples | communicator/api/dashboard.py:117-124 | the only failure is ValueError |
| Dashboard.SliceOfOrdered | communicator/api/dashboard.py:122 | a slice is a contiguous run of the list, is ordered when the list is, and has at most ten rows for a ten-row page |
| Dashboard.SamplesPage | communicator/api/dashboard.py:109-122 | a page has at most ten rows, ordered by `last_modified`, all from the search, and with a `last_modified` argument all strictly newer than it |
| Notifications.LinkCarriesCode | communicator/services/notification_service.py:54-55 | the link is the result page's address followed by the result code (`None` when it has none) |
| Notifications.BeforeFirst | communicator/services/notification_service.py:65 | the text before the first occurrence of a character is a prefix without that character, and is followed by it if it occurs |
| Notifications.SmsName | communicator/services/notification_service.py:64-67 | for a truthy email with '@' the name is its part before the first '@'; otherwise "Student" |
| Notifications.SmsNameIsLocalPart | communicator/services/notification_service.py:64-65 | the name of `local@domain` is `local` |
| Notifications.SmsBodyLayout | communicator/services/notification_service.py:69-70 | the SMS is the greeting, the name, the notice, the link and the opt-out, in that order and nothing else |
| Notifications.ReasonableHourIff | communicator/services/notification_service.py:193-199 | the hour is reasonable exactly from 08:00:00 up to and including 22:00:00.000000 |
| Notifications.DayOfMicros | communicator/services/notification_service.py:196-198 | an instant's midnight is its day's, whatever its time of day |
| Notifications.TrackingCode | communicator/services/notification_service.py:122-123 | the tracking code is the uuid's first 16 characters |
| Notifications.Outbox.constructor | communicator/services/notification_service.py:22 | nothing has been recorded or delivered yet |
| Notifications.NotificationService.constructor | communicator/services/notification_service.py:36-39 | the service keeps its mode, sender and Twilio number |
| Notifications.NotificationService.SendEmail | communicator/services/notification_service.py:142-191 | in TESTING mode exactly one message is recorded; otherwise the mail goes to the recipients followed by the BCC list, or a transport failure becomes CommError 5000 naming the recipients, recording nothing |
| Notifications.NotificationService.SendResultEmail | communicator/services/notification_service.py:80-98 | one result mail to the sample's address, its bodies rendered from the sample, the link and the tracking code it returns; a missing address is a TypeError |
| Notifications.NotificationService.SendResultSms | communicator/services/notification_service.py:57-78 | an unparseable or invalid phone raises (CommError 6001 for invalid) before anything is recorded; otherwise exactly one SMS body, recorded or sent to the E.164 number from the Twilio number |
| Notifications.NotificationService.SendInvitations | communicator/services/notification_service.py:100-120 | the mail goes to the sender with the lines of the address text as BCC, and an Invitation counting those lines is added only when the send succeeds |
| Admin.AddSample | communicator/api/admin.py:14-19 | the session's table becomes the upsert of a fresh row with the body's four fields |
| Admin.AddSampleExisting | communicator/api/admin.py:14-19 | posting a barcode already stored changes nothing, so a repeat post adds no row |
| Admin.AddSampleNew | communicator/api/admin.py:14-19 | posting a new barcode adds exactly its fresh row |
| Admin.ClearSamples | communicator/api/admin.py:21-25 | notifications, samples and invitations are empty; deposits are kept |
| Admin.MarkNotified | communicator/api/admin.py:58 | only the sample's flag for that channel is set |
| Admin.NotifyPass | communicator/api/admin.py:49-63 | the pass visits exactly the samples with a result not yet notified on the channel, each once; its table and its appended notifications are the pass's |
| Admin.VisitAll | communicator/api/admin.py:53-63 | visiting the pending barcodes in order gives the pass's table and appends one notification per barcode not skipped |
| Admin.Enumerate | communicator/api/admin.py:49-51 | the result list holds each pending barcode exactly once |
| Admin.PendingBarcodes | communicator/api/admin.py:49-51 | a barcode is selected exactly when its sample has a result code and the channel's flag is false |
| Admin.Visit | communicator/api/admin.py:54-63 | one visit extends the pass by one barcode |
| Admin.SendOne | communicator/api/admin.py:56-63 | a success sets the flag; a failure leaves the table; either way exactly one Notification is added |
| Admin.RecordedSnoc | communicator/api/admin.py:54-62 | a skipped barcode adds no Notification, and any other adds one with its outcome |
| Admin.PassOnStep | communicator/api/admin.py:54-62 | a visit changes only its own sample, and that only when the send succeeds |
| Admin.PassOnPending | communicator/api/admin.py:49-53 | visiting the pending samples in any order gives the same table |
| Admin.NotifyByEmail | communicator/api/admin.py:47-64 | the email pass over the pending samples |
| Admin.NotifyByText | communicator/api/admin.py:67-87 | as written: the text pass over the pending samples, whatever the hour |
| Admin.NotifyByTextGated | communicator/api/admin.py:67-87 | outside the reasonable hours nothing changes; within them, the text pass |
| Admin.UpdateAndNotify | communicator/api/admin.py:28-40 | as written: the update first, then the email pass over the updated table, then the text pass over what it left, at any hour; their notifications in that order |
| Admin.UpdateAndNotifyGated | communicator/api/admin.py:28-31 | the same with the text pass as intended: outside 08:00-22:00 no sample is texted and only the update and the email pass take effect |
| Admin.PassFlags | communicator/api/admin.py:54-62 | after a pass a sample is notified exactly when it already was or its send succeeded; only that channel's flag changes, and nothing else about the sample |
| Admin.PassTwice | communicator/api/admin.py:49-58 | a sample delivered by a pass is not pending for the next pass on that channel |
| Admin.RecordedOnce | communicator/api/admin.py:54-62 | each barcode gets one Notification if it was visited and not skipped, and none otherwise |
| Admin.RecordedChannel | communicator/api/admin.py:59-62 | every Notification names the channel and a visited, unskipped sample, has no date, and is successful exactly when the send was, with the failure's text |
| Admin.LateNightTextAsWritten | communicator/api/admin.py:69-72 | at 03:00 the hour is not reasonable, yet the text pass as written texts a pending sample |
| IndexView.StoredAfter | communicator/__init__.py:162-166 | with a stored filter, a missing start date is written back as today and nothing else changes |
| IndexView.FilterAdmits | communicator/__init__.py:162-177 | a row matches exactly when it is dated on or after the start (today by default), on or before the end's midnight, its student and location are in the split lists, and its email starts with the term ignoring case |
| IndexView.NoFilterIsToday | communicator/__init__.py:181-183 | with no stored filter only rows from today's midnight on are selected, as with an empty one |
| IndexView.DaysApart | communicator/__init__.py:192 | the absolute difference of the two days |
| IndexView.WeeksApart | communicator/__init__.py:193 | `days // 7` when days > 7, and 1 otherwise |
| IndexView.CodesSplitLocation | communicator/__init__.py:203-204 | the location code (at most two characters) and the station code put back together are `str(location)` |
| IndexView.Times | communicator/__init__.py:209-212 | one timestamp per row, in order |
| IndexView.GroupByLocation | communicator/__init__.py:198-212 | each group holds exactly the rows with its location code, in order; the keys are the codes present; the times match the rows; the stations are the station codes present |
| IndexView.OpenGroup | communicator/__init__.py:207-209 | opening a group for a new code keeps the grouping exact |
| IndexView.AppendToGroup | communicator/__init__.py:210-212 | appending to an existing group keeps the grouping exact |
| IndexView.GroupsPartition | communicator/__init__.py:202-212 | every row lands in exactly one group: the group sizes add up to the number of rows |
| IndexView.CountWeekdays | communicator/__init__.py:220-223 | seven slots, slot w counting rows on weekday w (Monday = 0), adding up to the number of rows |
| IndexView.BuildPage | communicator/__init__.py:189-223 | the page values for the selection: the range, the week count, the grouping, the weekday tally and the three counts |
| IndexView.Index | communicator/__init__.py:158-225 | as written: without a stored filter, or with an empty selection, the view raises UnboundLocalError; otherwise the page |
| IndexView.IndexIntended | communicator/__init__.py:158-223 | the page for every input, with the default filter when none is stored |
| IndexView.NoFilterFails | communicator/__init__.py:181-190 | with no stored filter every row dated from today's midnight on is selected, and the selection is empty exactly when there is none; so the first-visit failure of `IndexView.Index` happens with today's samples present |
| IndexView.EmptySelectionFails | communicator/__init__.py:158-177 | a stored filter selects nothing, which makes `IndexView.Index` fail on the unbound loop variable of line 225, exactly when no row meets all of its conditions |
| IndexView.IntendedEmptyPage | communicator/__init__.py:189-223 | the intended page for an empty selection is empty groups, a zero tally and the default week range |
| Text.WordsAreWords | communicator/services/graph_service.py:157 | every element of `split()` is non-empty and has no whitespace |
| Text.WordsEmptyIffBlank | communicator/api/dashboard.py:37 | `split()` is empty exactly when the text is whitespace only |
| Text.WordsOfJoin | communicator/services/graph_service.py:157 | splitting words joined by spaces gives the words back |
| Text.LinesHaveNoBreaks | communicator/services/notification_service.py:101 | no line of `splitlines()` holds a line break |
| Text.LinesOfJoin | communicator/services/notification_service.py:101 | splitting lines joined by newlines gives the lines back |
| Text.ParseIntOfIntToString | communicator/__init__.py:203-204 | `int(str(n)) == n` |
| Text.ContainsIffOccurs | communicator/services/graph_service.py:50 | `sub in s` holds exactly when sub occurs at some position of s |

## Left out

- I/O and foreign libraries are parameters or absent. This covers reading and writing CSV
  (`import_ivy_file`, both `__make_csv`, the download branch of `index`), the Firestore
  client, SMTP, MIME, Twilio, `phonenumbers`, rendering the templates, and `uuid4`. It also
  covers `request_transfer` and `load_directory`: the update's incoming samples are an input.
- `last_failure_by_type` is an oracle `skip(barcode)`, and each send's outcome is an oracle
  `send(barcode)`. Their definitions are not part of this model.
- The clock comes in as parameters (`today`, `now`). The three `datetime.now` calls in
  `is_reasonable_hour_for_text_messages` (communicator/services/notification_service.py:196-198)
  are taken as the same instant, in the zone's local time; a midnight falling between them is
  not modelled.
- `IndexView.Times`: `entry.date.timestamp()` reads the naive stored datetime in the server's
  local zone and returns a float. The model reads the stored time as UTC whole minutes, so the
  server's zone offset and the fractional seconds are not modelled.
- `strptime("%m/%d/%Y")` and `fromisoformat` are parameters that return a day, an instant or
  None.
- `Dashboard.GetTopbarData`, `Dashboard.GetSamples`: the filters of `add_sample_search_filters`
  are a parameter (`searchQuery`). That function is not part of this model.
- Floating point is left out. `GraphHelpers.RoundRate` computes `round(i/d + .4)` exactly on
  rationals, rounding half to even; the binary float and its rounding error are not modelled.
  `stats["weeks"]` in `index` is kept as its numerator (`IndexView.Stats.fortnight`), without
  the division by 14.
- `Dashboard.StationSum`: numpy's sum of vectors of unequal length (an error, or an object
  array) is modelled as None. An empty location cannot reach it, and `dtype=np.int` is not
  modelled.
- `Text.ParseInt` accepts an optional sign followed by ASCII digits. It does not accept the
  other literals `int()` takes: underscores, non-ASCII digits, and surrounding whitespace,
  which `split()` has already removed.
- `Text.Lower` folds only ASCII letters, so ILIKE and header lookups ignore only ASCII case. A
  `%` or `_` in the index email term is taken literally, not as an ILIKE wildcard.
- The `in_` filters compare a column to the split words. The model parses each word as an
  integer for the integer columns. A word that is not a number matches nothing; the database
  would instead raise an error or convert it.
- SQL row order with ties, the order of a GROUP BY, and the order of dictionary keys are not
  modelled. Results are stated as maps and sets, and the notification passes return the order
  they chose.
- `SampleService.AddOrUpdateRecords` requires the incoming objects to be distinct and not
  already in the session, as every caller's freshly built samples are. With aliasing, the
  session's old values would no longer be well defined.
- Committing, `sleep(0.5)` between sends, the `with NotificationService` connection setup and
  teardown, and concurrent passes are not modelled.
- From `index`, the form handling and session writes (lines 133-156) and the histogram,
  station charts and rendering (line 230 on) are not modelled. The `except` branch at lines
  178-180 cannot be reached in the model, because a stored filter is a text-valued record.
- `update_data`'s `db.session.commit()` and `merge_similar_records` are not modelled. The
  merge is not among the functions shown, so `correct_computing_id` is not modelled either.
- The `station`, `computing_id`, `last_modified`, `email_notified` and `text_notified` columns
  are read and written as the code does. Their defaults and database triggers are not part of
  this model.
- `SampleModel.SampleRow`: `student_id`, `date` and `location` are nullable columns
  (communicator/models/sample.py:6-8) but are modelled as plain integers, because every
  loader in the model supplies them. The NULL cases are not modelled: SQL compares NULL as
  unknown, so such a row fails every filter on that column (`student_id != 0`, the date
  bounds, the `in_` lists) yet still forms its own GROUP BY group, charted under a `None`
  location (communicator/services/graph_service.py:93-94) and coded "No" by
  `str(entry.location)[:2]` in `index` (communicator/__init__.py:203-204).
- `FirebaseService.RecordToSample` requires `Typed(doc)`: the four mapped fields hold a
  string, an integer, a time and an integer. The source copies whatever the document holds,
  nulls and other types included (communicator/services/firebase_service.py:28-36); such
  documents, and whatever the database later does with them, are not modelled.
- Flask and Connexion routing, decoding request bodies, JSON, `SampleSchema` and `jsonify` are
  not modelled.

## Findings

| source | as written | input that shows it | evidently intended | confidence | as-written member | corrected member |
|---|---|---|---|---|---|---|
| communicator/api/admin.py:70 | `if not notifier.is_reasonable_hour_for_text_messages:` tests the bound method, which is always truthy, so the early return never fires | a pending sample with a result at 03:00: it is texted and marked notified | call the method and skip texting outside 08:00-22:00 | high (not executed) | Admin.NotifyByText, Admin.UpdateAndNotify, Admin.LateNightTextAsWritten | Admin.NotifyByTextGated, Admin.UpdateAndNotifyGated |
| communicator/services/graph_service.py:155-166 | `filters[key].split()` on the lists that communicator/api/dashboard.py:37-42 stores; the AttributeError is caught and every later filter is dropped | `location="40"` on `get_totals_by_day`: the search keeps the default window and ignores the requested dates and `include_tests` | split only text, or pass the lists through, so that every parameter takes effect | high (not executed) | Dashboard.ListParamsDropAllFilters, Dashboard.AsWrittenSearch, Dashboard.GetTotalsByDayAsWritten, Dashboard.GetTotalsByWeekdayAsWritten, Dashboard.GetTotalsByHourAsWritten | Dashboard.ParsedParamsComplete, Dashboard.GetTotalsByDay, Dashboard.GetTotalsByWeekday, Dashboard.GetTotalsByHour |
| communicator/__init__.py:190 | `filters` is bound only inside `if "index_filter" in session:` | a first visit with no stored filter: the view raises UnboundLocalError, although today's samples match | read the start and end from the stored filter when there is one, else use the defaults | high (not executed) | IndexView.Index, IndexView.NoFilterFails | IndexView.IndexIntended, IndexView.IntendedEmptyPage |
| communicator/__init__.py:225 | `logging.info(type(entry.date))` after the loops reads the loop variable | a stored filter that selects no sample: `entry` is never bound and the view raises UnboundLocalError | log only when a sample was seen | high (not executed) | IndexView.Index, IndexView.EmptySelectionFails | IndexView.IndexIntended, IndexView.IntendedEmptyPage |
