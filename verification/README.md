# Battery Notification Service — a verified model of its campaign pipeline

The service looks for smart locks whose battery level has not been checked
for a number of days. It sends a push reminder to each lock's owner. It then
records what happens next: the click on the reminder's link, and the battery
check that follows. Reports over those facts measure how well each campaign
worked.

This Dafny project models four parts of that system:

- **`NotificationService`** (`notification_service.dfy`). The campaign runner, `BatteryNotificationService`, is a class with the campaign table and the delivery log as fields. Its methods follow the JavaScript ones step by step:
  - the paginated scan for stale locks,
  - the user lookup in slices of 1000 lock ids,
  - the batched multicast send, which logs each accepted message,
  - the campaign record's creation and final update,
  - the whole run.

  Each loop is proved against a recursive specification function, and each function is then related by lemmas to the properties the run promises. Those properties include: the scan collects every page, the lookup finds exactly the eligible users, batching loses no user, sent plus failed equals the recipients, and the campaign is finalized on every path.
- **`ClickTracking`** (`click_tracking.dfy`). The HTTP tracker: the client address, the `/track-click/:campaignId/:userId` route with its redirect, the battery-check endpoint with its validation, lookup and day count, and the campaign-stats endpoint. The class `TrackingStore` holds the tables the handlers append to.
- **`Analytics`** (`analytics.dfy`). The four read-side queries of `AnalyticsService`: campaign effectiveness, weekly trends, user engagement and response times. Each is a pure function over the fact tables, and the lemmas state what the SQL aggregates mean. The dashboard script (`analytics-dashboard.js`, lines 16-153) runs the same four queries, so both are modelled by these functions.
- **`Dashboard`** (`dashboard.dfy`). The console report: which sections it prints before a failing query ends it, and the overview and response-time reductions it computes itself.

Three support modules complete the model:

- `schema.dfy` has the table rows and the `Outcome` type.
- `numbers.dfy` has JavaScript's `parseInt` and the decimal rendering of integers.
- `sequences.dfy` has slicing, sums, grouping, filtering and sorting, with their lemmas.

The outside world is modelled as parameters:

- The key-value scan is the sequence of pages it answers.
- The push gateway is a function from the batch number to its reply.
- Clocks are integer milliseconds, in UTC.
- A store failure is a flag, or a set of failing query numbers.

## Model

| member | source | states |
|---|---|---|
| NotificationService.ConfiguredDecimal | src/services/NotificationService.js:8-9 | a setting written as a decimal number is taken as that number, except that 0 falls back to the default |
| NotificationService.ConfiguredPositive | src/services/NotificationService.js:8-9 | the configured value is positive exactly when the setting does not parse to a negative number (unset, non-numeric and 0 all fall back) |
| NotificationService.BatteryNotificationService.constructor | src/services/NotificationService.js:7-11 | threshold and batch size come from the environment with defaults 30 and 100, and the campaign id is the fresh id given |
| NotificationService.ScanStop | src/services/NotificationService.js:32-48 | the scan stops at the first page without a continuation key, and every page before it has one |
| NotificationService.ScanFrom | src/services/NotificationService.js:52-55 | a scan can fail only with a store error, which it passes on |
| NotificationService.ScanCollectsPages | src/services/NotificationService.js:27-51 | the scan result is the concatenation, in page order, of the items of every page up to the stopping one, where a page without items adds nothing; a failing page fails the scan |
| NotificationService.BatteryNotificationService.GetStaleLocks | src/services/NotificationService.js:13-56 | the loop returns what `NotificationService.ScanFrom` defines; it issues one request per page, each with the threshold of now minus the threshold days; the first request has no start key, and each later one starts at the previous page's key |
| NotificationService.QueryBindsIds | src/services/NotificationService.js:66-77 | the `IN` list built by joining `$1`…`$n` with commas, read back field by field with `$k` bound to the k-th parameter, stands for exactly the slice's ids in order; an empty slice would give an invalid list |
| NotificationService.MappedUsers | src/services/NotificationService.js:69-77 | one query returns at most one row per mapping row |
| NotificationService.MappedUsersSelects | src/services/NotificationService.js:69-74 | a user row is returned exactly when a mapping row has its lock among the ids and a non-null token |
| NotificationService.LookupFrom | src/services/NotificationService.js:76-82 | a failing slice query fails the lookup with a store error |
| NotificationService.LookupFromResult | src/services/NotificationService.js:65-86 | the lookup succeeds exactly when no slice query fails, and then returns exactly the eligible users of all the ids |
| NotificationService.LookupSelectsEligible | src/services/NotificationService.js:58-87 | a successful lookup of the lock ids returns a user exactly when an eligible mapping row yields it |
| NotificationService.LookupFromFirst | src/services/NotificationService.js:76-81 | the first slice's users come before the later slices' users, unless its query fails |
| NotificationService.LookingUpFromIsLookupFrom | src/services/NotificationService.js:65-66 | stepping an index by 1000 visits the same slices as cutting the ids into chunks of 1000 |
| NotificationService.LookingUpIsLookup | src/services/NotificationService.js:65-66 | the index loop from 0 is the lookup over the chunks of 1000 |
| NotificationService.BatteryNotificationService.GetUsersForLocks | src/services/NotificationService.js:58-87 | the loop returns what `NotificationService.LookingUpFrom` defines; query j is built over slice j; on success the queries cover every id; a failure comes from the last query issued |
| NotificationService.ClickTrackingUrl | src/services/NotificationService.js:158 | a reminder's link is the base URL, rendered "undefined" when unset, followed by the tracker's route for the campaign and user |
| NotificationService.ReminderIdentifiesRecipient | src/services/NotificationService.js:148-159 | a reminder goes to the user's token and carries the campaign, the type, a lock id that parseInt reads back to the user's lock, and the user's tracking link |
| NotificationService.RemindersOnePerUser | src/services/NotificationService.js:148-175 | a batch yields one reminder per user, in order, each addressed to and identifying that user |
| NotificationService.SendOutcome | src/services/NotificationService.js:177-195 | a send throws as a gateway error when the gateway throws, and as a malformed reply when the gateway answers more messages than were sent; otherwise it returns the reply |
| NotificationService.LoggedRows | src/services/NotificationService.js:181-188 | the logging loop writes at most one row per answer read |
| NotificationService.LoggedRowsAccepted | src/services/NotificationService.js:181-188 | each logged row is an accepted message's user, stamped "sent", whose insert went through |
| NotificationService.LoggedRowsExact | src/services/NotificationService.js:181-188 | for any set of rejected inserts, the log rows are, in batch order, one row per accepted message whose insert went through: they come from strictly increasing positions, and a position is among them exactly when its message was accepted and its insert not rejected |
| NotificationService.LoggedRowsCount | src/services/NotificationService.js:181-188 | when no insert is rejected, the log gains exactly one row per accepted answer |
| NotificationService.BatchEffect | src/services/NotificationService.js:227-239 | a batch adds the gateway's success and failure counts plus one pause when users remain; a batch whose send throws adds its whole size to the failures and takes no pause |
| NotificationService.BatchesCoverUsers | src/services/NotificationService.js:223-224 | the batches, put back together, are the users: none lost, none duplicated |
| NotificationService.SendingFromIsDispatch | src/services/NotificationService.js:223-240 | the index loop from position i yields the same counts, pauses and log rows as sending the batches of the remaining users |
| NotificationService.SendingIsDispatch | src/services/NotificationService.js:223-240 | the index loop from 0 yields the same counts, pauses and log rows as sending the batches of all users |
| NotificationService.DispatchAccounting | src/services/NotificationService.js:219-243 | when each reply's counts add up to its batch, sent plus failed equals the number of users |
| NotificationService.DispatchDelays | src/services/NotificationService.js:232-235 | there are at most one fewer pauses than batches, and exactly one fewer when every batch is delivered |
| NotificationService.DispatchRowsNameRecipients | src/services/NotificationService.js:119-188 | every log row belongs to this campaign, has status "sent" and names a recipient's user, lock and token |
| NotificationService.DispatchRowsMatchSent | src/services/NotificationService.js:181-190 | when replies are faithful and no insert is rejected, the log gains exactly as many rows as messages counted sent |
| NotificationService.ThreeUserScenario | scripts/test-script.js:6-55 | three users sent in one default-size batch that is fully accepted give 3 sent, 0 failed, no pause, and log rows for users 101, 102 and 103 in order |
| NotificationService.Created | src/services/NotificationService.js:89-117 | the campaign insert succeeds exactly when the store accepts it and the id is new; it adds a "running" row of type battery_reminder and changes no other campaign |
| NotificationService.BatteryNotificationService.CreateCampaignRecord | src/services/NotificationService.js:89-117 | the method performs that insert on the campaign table and returns the inserted row, or the failure |
| NotificationService.Finalized | src/services/NotificationService.js:198-217 | the final update sets the totals, the completion time and "completed" on this campaign only; when it fails, or when the row is missing, nothing changes |
| NotificationService.CreateThenFinalize | src/services/NotificationService.js:198-217 | a created campaign finalized with totals ends completed with those totals and its creation time |
| NotificationService.BatteryNotificationService.UpdateCampaignStats | src/services/NotificationService.js:198-217 | the method applies the final update to the campaign table |
| NotificationService.BatteryNotificationService.LogNotificationSent | src/services/NotificationService.js:119-145 | the log gains the delivery row unless the insert fails, and a failing insert is swallowed |
| NotificationService.BatteryNotificationService.SendBatchNotifications | src/services/NotificationService.js:147-196 | the method builds the batch's reminders, returns the send outcome and appends the logged rows, including those written before a malformed reply throws |
| NotificationService.BatteryNotificationService.ProcessBatches | src/services/NotificationService.js:219-243 | the loop's totals, pauses and log rows are those of `SendingFrom` from index 0, which `SendingIsDispatch` equates with sending every batch in order |
| NotificationService.BatteryNotificationService.Run | src/services/NotificationService.js:245-287 | the run's result, campaign table and log are those `NotificationService.Campaign` defines; the batch size must be positive only for a run that gets as far as sending |
| NotificationService.RunFailsOnlyOnStoreErrors | src/services/NotificationService.js:282-286 | a run throws exactly when the campaign insert, the scan or the lookup fails, and always with a store error; gateway, logging and update failures never reach the caller |
| NotificationService.CampaignTotals | src/services/NotificationService.js:256-276 | after a successful create, the campaign is finalized with the dispatch totals when there are recipients, and with zeros and no log rows otherwise |
| NotificationService.RunCompletesCampaign | src/services/NotificationService.js:245-287 | with a successful create and update, the campaign ends completed with the finish time and its totals, and other campaigns are untouched |
| NotificationService.RunFailedCreate | src/services/NotificationService.js:282-286 | when the create fails, the run writes no log row and adds no campaign |
| NotificationService.RunAccounting | src/services/NotificationService.js:273-276 | with consistent gateway replies, the stored sent and failed totals add up to the number of recipients |
| ClickTracking.ClientIP | click-tracking-api.js:21-26 | the address is the first truthy one of the forwarded header, the connection address and the socket address, then the connection socket's; it is null when none is present |
| ClickTracking.MatchTrackClick | click-tracking-api.js:29-30 | a matched path is the route prefix followed by two non-empty segments without slashes |
| ClickTracking.MatchTrackClickPath | click-tracking-api.js:29-30 | every such path matches, with those two segments as the parameters |
| ClickTracking.Click | click-tracking-api.js:29-53 | a click redirects exactly when its row is inserted, which is when the store accepts it and the user id parses; the row holds the ids, address, agent and time; the redirect goes to the app link; any failure is a 500 |
| ClickTracking.ClickAttribution | click-tracking-api.js:29-47 | the link a reminder carries matches the route with the campaign and user, and the click it records is attributed to that user |
| ClickTracking.DefaultAppLink | click-tracking-api.js:46-47 | without a configured scheme, the redirect goes to your-app-scheme://battery-check |
| ClickTracking.LatestSentAt | click-tracking-api.js:65-73 | the lookup finds nothing exactly when no delivery matches; otherwise it finds the latest send time of a matching delivery |
| ClickTracking.DaysAfter | click-tracking-api.js:79-81 | the day count is the floor of the elapsed milliseconds over a day: non-negative when the send is in the past, negative otherwise |
| ClickTracking.DaysAfterExample | click-tracking-api.js:81 | 26 hours after the send counts as 1 day |
| ClickTracking.DaysAfterMonotone | click-tracking-api.js:79-81 | a later send never gives more days |
| ClickTracking.BatteryCheck | click-tracking-api.js:56-103 | a missing or falsy field gives 400; no matching delivery gives 404; a recorded check holds the ids, the time, and the day count since the latest matching delivery, which is also what the response returns; store failures give 500 |
| ClickTracking.CheckAfterReminder | click-tracking-api.js:56-97 | a battery check for a logged reminder with truthy ids is recorded when the store works |
| ClickTracking.CampaignStats | click-tracking-api.js:106-127 | a store failure gives 500, an unknown campaign gives 404, and otherwise the response is the campaign's first effectiveness row |
| ClickTracking.FirstRowOf | click-tracking-api.js:121 | the index found is that of the first row of the campaign |
| ClickTracking.TrackingStore.TrackClick | click-tracking-api.js:29-53 | the handler responds as `ClickTracking.Click` defines and appends its row, if any, to the clicks; no other table changes |
| ClickTracking.TrackingStore.TrackBatteryCheck | click-tracking-api.js:56-103 | the handler responds as `ClickTracking.BatteryCheck` defines and appends its row, if any, to the actions; no other table changes |
| Analytics.GuardedPercent | src/services/AnalyticsService.js:79-92 | a guarded rate is 0 when nothing was sent, and lies between 0 and 100 when the part is within the whole |
| Analytics.CampaignEffectiveness | src/services/AnalyticsService.js:5-38 | a store failure is passed on; rows come newest first; without a truthy id they are all rows of the view, and with one they are exactly that campaign's rows |
| Analytics.DayStart | src/services/AnalyticsService.js:94 | the current date is the midnight that starts today |
| Analytics.WeekStart | src/services/AnalyticsService.js:72 | a week start is a Monday midnight at or before the time, less than a week before it |
| Analytics.WeekStartUnique | src/services/AnalyticsService.js:95 | the week start is the only such Monday, so rows group by calendar week |
| Analytics.Recent | src/services/AnalyticsService.js:94 | the recent campaigns are exactly those created on or after the current date minus the weeks |
| Analytics.WeeklyTrends | src/services/AnalyticsService.js:70-106 | a store failure is passed on as a store error |
| Analytics.WeekRowsAggregate | src/services/AnalyticsService.js:93-96 | each weekly row aggregates its week's recent campaigns, and each week with a campaign has a row |
| Analytics.WeeklyTrendsRows | src/services/AnalyticsService.js:70-96 | rows come newest week first, one per week with a recent campaign, each the aggregate of that week |
| Analytics.WeekRowMeaning | src/services/AnalyticsService.js:71-92 | a week row counts its campaigns and sums their sent, clicks and checks; the averages are the sums of the rates over the count; the overall rates are 0 when nothing was sent and clicks or checks over sent times 100 otherwise |
| Analytics.WeekRowsSum | src/services/AnalyticsService.js:74-76 | a column summed over the weekly rows is the grouped sum of the campaign column |
| Analytics.WeekRowsConserve | src/services/AnalyticsService.js:73-76 | over the weekly rows, the counts and totals add up to those of the recent campaigns |
| Analytics.WeeklyTrendsConserve | src/services/AnalyticsService.js:70-96 | the sorted result loses and duplicates no campaign: counts and totals add up to those of the recent campaigns |
| Analytics.OverallIsNotAverage | src/services/AnalyticsService.js:77-85 | the average of the campaigns' rates differs from the week's overall rate (30 against 1500/110 in the example) |
| Analytics.EngagementOf | src/services/AnalyticsService.js:110-123 | a user clicked and acted upon at most as many distinct campaigns as they received |
| Analytics.EngagementsOnePerUser | src/services/AnalyticsService.js:110-123 | there is one engagement row per user with a logged reminder, no user twice, and each row counts that user's distinct campaigns, with at least one received |
| Analytics.UserEngagementStats | src/services/AnalyticsService.js:108-147 | the query fails on a store failure, and with a division by zero when no reminder was ever logged |
| Analytics.UserEngagementBounds | src/services/AnalyticsService.js:124-136 | the users who clicked or acted are at most all users, their rates lie between 0 and 100, and the average clicks and actions per user are at most the average campaigns received |
| Analytics.ResponseRowBounds | src/services/AnalyticsService.js:150-158 | a campaign's row counts at least one response, its average lies between its minimum and maximum, and same-day ≤ within-week ≤ total |
| Analytics.AverageWithinRange | src/services/AnalyticsService.js:153-155 | the average day count lies between the least and the greatest |
| Analytics.ResponseTimes | src/services/AnalyticsService.js:149-171 | a store failure is passed on as a store error |
| Analytics.ResponseRowsAggregate | src/services/AnalyticsService.js:150-160 | each response row aggregates its campaign's checks, and each campaign with a check has a row |
| Analytics.ResponseRowsCount | src/services/AnalyticsService.js:156-160 | the response counts add up to the number of checks |
| Analytics.ResponseTimesRows | src/services/AnalyticsService.js:149-162 | rows come fastest average first; each satisfies the row bounds and aggregates its campaign; every check's campaign has a row; the counts add up to the number of checks, so the result is empty exactly when there are none |
| Dashboard.OverallRate | analytics-dashboard.js:175-176 | an overall rate is 0 when nothing was sent, and part over sent times 100 otherwise |
| Dashboard.OverviewOf | analytics-dashboard.js:165-177 | the overview counts the campaigns and has totals exactly when there is a campaign |
| Dashboard.ReportOverview | analytics-dashboard.js:162-177 | the printed totals are the sums over every campaign in the view, present exactly when there is one, and the rates are 0 when nothing was sent |
| Dashboard.UnguardedPercent | analytics-dashboard.js:218-219 | the unguarded percentage is undefined exactly when the total is 0; otherwise it is part over total times 100, and within 0..100 when the part is within the total |
| Dashboard.ResponseSummaryOf | analytics-dashboard.js:207-221 | the no-data line is printed exactly when there are no rows; otherwise the counts are the sums of the rows' counts |
| Dashboard.ResponseSummaryBounds | analytics-dashboard.js:210-219 | over rows that each count at least one response, the total is at least the number of rows, same-day ≤ within-week ≤ total, and both percentages exist and lie between 0 and 100 |
| Dashboard.ReportResponses | analytics-dashboard.js:207-221 | the printed response summary is the no-data line exactly when there is no battery check; otherwise its total is the number of checks, its counts keep their order, and neither percentage divides by zero |
| Dashboard.JoinedCounts | analytics-dashboard.js:212-214 | the script's sum of the string-typed counts is a string that starts with "0" and has at least one character per row beyond it |
| Dashboard.JoinedCountsExample | analytics-dashboard.js:212-218 | counts 1 and 2 are reported as "012", read as 12, where the sum is 3 |
| Dashboard.GenerateReport | analytics-dashboard.js:155-230 | the sections are printed in order until the first failing query, and no failure escapes the report; the engagement section also stops the report when no reminder was logged; the overview counts every campaign in the view |

## Left out

- The key-value store client, the relational pool and the push gateway are not modelled as code. Their answers are parameters: the scan pages, the mapping table, failure flags and the gateway function. `src/config/db.js`, `src/config/firebase.js` and the pool setup at the top of the two scripts are not part of this model.
- UUID generation is left out. The campaign id is a given fresh value.
- The one-second pause between batches is counted, not timed.
- Console logging is left out.
- Dates are integer milliseconds in UTC. These are not modelled:
  - ISO-8601 strings,
  - `setDate` across a daylight-saving change (the scan threshold is now minus whole days),
  - the database session's time zone for `CURRENT_DATE` and `DATE_TRUNC`.
- The scan compares timestamps. The model does not capture that the filter compares ISO strings.
- Rounding is left out: `ROUND(…, 2)`, `toFixed(2)` and `toLocaleDateString`. Ratios are exact reals, and the 2-decimal display is not modelled.
- The `|| 0` display fallbacks in the weekly section only affect printing. They are not modelled.
- The `campaign_effectiveness` view is not defined in the repository. Its columns are inputs (`EffectivenessRow`), so the model does not capture how they are computed.
- Some numbers are modelled as unbounded integers:
  - JavaScript's loss of precision above 2^53 is not modelled.
  - Inserting `NaN` into an integer column is taken to be rejected by the store.
- `NotificationService.BatteryNotificationService.ProcessBatches` requires `batchSize > 0` unless there are no users. `NotificationService.BatteryNotificationService.Run`, `NotificationService.Campaign` and the lemmas about a run require it only when the run gets as far as sending (`NotificationService.ReachesSend`). With a negative configured batch size (0 falls back to 100) the JavaScript send loop never ends. A run that fails before sending, or finds no lock or no user, still ends normally, and the model covers it for any batch size.
- The scan requires its pages to end with a page without a continuation key. An endless key chain never terminates in the JavaScript.
- `/weekly-summary` and `/health` in `click-tracking-api.js` are left out. They are not part of the core pipeline.
- `src/jobs/run-campaign.js` is left out: exit codes and signal handlers. `src/jobs/run-analytics.js` is also left out. Its console report repeats the dashboard's, reductions included.
- `getWeeklyTrends` in `AnalyticsService.js` first builds a query string it never runs (lines 41-66). Only the executed query is modelled.
- Route matching does not model percent-decoding of path segments, or Express's handling of a trailing slash.
- Concurrency between requests is left out. Each handler is one atomic step on the store.
- The engagement query divides by the user count without a guard. With no logged reminder it therefore fails (`Analytics.UserEngagementStats`), and the report stops there (`Dashboard.GenerateReport`).
- The day count after a reminder is not clamped. It is negative when the reminder's send time lies in the future (`ClickTracking.DaysAfter`).
- `ClickTracking.BatteryCheck`: the three body fields are typed, the campaign id as an optional string and the two ids as optional integers. The handler destructures arbitrary JSON. A JSON string such as `"0"` is truthy there and passes the guard. A non-numeric or fractional id passes it too, and then the lookup query fails with a 500. Those inputs are not modelled.
- `ClickTracking.Click`, `ClickTracking.BatteryCheck`: the stored `clickedAt` and `checkedAt` come from the handler's clock `now`. The inserts leave those columns to the store's default, so the real values are the store's clock at insert time. The model takes the two clocks to agree.
- `NotificationService.LoggedRows`: every log row of a batch carries the one time `call.at`. The JavaScript takes a fresh `new Date()` for each logged message, so rows of one batch may differ by a few milliseconds.
- `Dashboard.ResponseSummaryOf`, `Dashboard.ReportResponses`: the summary adds the response counts as integers, which is the evidently intended behaviour. The as-written string concatenation is modelled separately (see Findings).

## Findings

| source | as written | input that shows it | evidently intended | confidence | as-written member | corrected member |
|---|---|---|---|---|---|---|
| analytics-dashboard.js:212-214 | the response-time summary adds up `total_responses`, `same_day_responses` and `week_responses` with `reduce` starting from the number 0; these are COUNT columns, which the PostgreSQL driver returns as decimal strings by default, so the sum concatenates the digits and the percentages divide the concatenations' numeric readings | two campaigns with 1 and 2 responses: the report shows "012" responses, read as 12 | the integer sum, 3 | not executed; rests on the driver's default of returning 64-bit integers as strings | Dashboard.JoinedCounts, Dashboard.JoinedCountsExample | Dashboard.ResponseSummaryOf, Dashboard.ResponseSummaryBounds |
