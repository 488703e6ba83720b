# slack-harvest: the timesheet-nag and billable-percentage engines

A Dafny model of the two flows of slack-harvest. The tool links chat-platform
members to time-tracking users and nags the ones who have not filled in their
timesheet. It also reports the share of billable hours logged this week.

- **Timesheet nag** (`timesheets.dfy`, module `Timesheets`). It works out the
  *day of interest* from the current day and hour. Before the 19:00 deadline
  it rolls back to the previous business day. It skips the run when that day
  is a weekend day or a listed public holiday. It joins the chat member list
  to the time-tracking people list by email, and keeps only live members and
  active, non-contractor, non-excluded users. It attaches each linked user's
  entries for the day. Users with no entries are picked out, and a
  `Hey <@id|name>… ? ` message is composed for them.
- **Billable percentage** (`billable.dfy`, module `BillablePercentage`). It
  validates the options of the project-entries report call and builds its
  URL. It computes the window start and keeps the projects with records since
  then. It fetches each project's billable and non-billable entries and drops
  projects with neither. The `accumulator` adds up the hours, divides, and
  rounds the percent up. The last step is the announcement text.

Supporting modules:
- `wrappers.dfy` (`Option`, `Result`)
- `seqs.dfy`: `map`, `filter`, `find` and `indexOf` with what they promise
- `calendar.dfy`: day numbers, weekdays, clock readings, and a `Moment` class that is moved in place like a moment.js object
- `js.dfy`: truthiness, `String(v)` and division by zero as JavaScript defines them
- `harvest.dfy`: the time-tracking records

Dates are day numbers counted from 1970-01-01, which was a Thursday, so the
weekday is `(d + 4) % 7`. Timestamps are seconds from the same local midnight.
The clock readings, the holiday list, the exclusion list, the chat and
time-tracking answers, the report calls and the list-joining library are all
parameters.

Behaviour of the code worth knowing, which the model keeps:
- The holiday test is applied to the *rolled-back* day of interest, not to "now".
  So a run on Saturday before 19:00 checks Friday, and a run on Sunday before
  19:00 checks Saturday and is skipped (`DayOfInterestIsWeekend`).
- The billable window starts on the most recent **Sunday**, not Monday. The
  offset is `day() - MONDAY + 1 = day()` days. It keeps the current time of
  day, so the start is a timestamp, not midnight (`WindowStart`).
- Both flows read the clock twice, and the model takes both readings as
  parameters. The day of interest compares the first reading with the
  second moved to 19 o'clock. `hour(19)` keeps the second reading's minutes,
  seconds and milliseconds. So between 19:00 and 20:00 a tick between the
  readings rolls the run back a day (`DeadlineHourTickRollsBack`). The window
  start takes the weekday from the first reading and subtracts it from the
  second. So a midnight between them starts the window on a Monday
  (`WindowStart`).
- A chat member is kept only when its `deleted` flag is present and `false`.
  A member without the flag is dropped.
- A project whose latest-record timestamp is missing (`null`) is **kept**. The
  date library cannot read it, and its `isBefore` then answers false.
- At zero total hours the percentage is not a sentinel. It is JavaScript's
  `NaN`, or `±Infinity` when the billable hours are non-zero. The model
  represents these as `Js.Number`.
- The nag message is composed but not delivered: the webhook call in the
  source is commented out.

## Model

| member | source | states |
|---|---|---|
| `Calendar.Moment.SetWeekday` | app/timesheets.js:148-150 | `day(n)` lands on weekday `n mod 7`, `n / 7` weeks from the moment's own week; the time of day is kept |
| `Calendar.Moment.SetHour` | app/timesheets.js:140 | `hour(h)` sets the hour and keeps the day and the minutes, seconds and milliseconds |
| `Calendar.IsBeforeLexicographic` | app/timesheets.js:143 | `isBefore` on two clock readings orders them by day, then hour, then milliseconds past the hour |
| `Timesheets.IsHoliday` | app/timesheets.js:29-44 | a day is a holiday iff it is a Saturday or Sunday or it is in the holiday list; weekends are holidays whatever the list holds |
| `Timesheets.SingleReadingRollsBackBeforeDeadline` | app/timesheets.js:137-143 | when both clock readings are the same instant, the run rolls back iff it is before 19:00 |
| `Timesheets.AtDeadlineKeepsToday` | app/timesheets.js:137-154 | when both clock readings are the same instant, at or after 19:00 the day of interest is that instant unchanged |
| `Timesheets.DeadlineHourTickRollsBack` | app/timesheets.js:137-151 | between 19:00 and 20:00, a second reading later in the same hour makes the run roll back to an earlier day, where a single reading keeps today |
| `Timesheets.RollbackIsPreviousBusinessDay` | app/timesheets.js:142-151 | when the run rolls back, Monday to Saturday, the day of interest is the latest weekday before today with only weekend days between; a Monday gives the Friday |
| `Timesheets.DayOfInterestIsWeekend` | app/timesheets.js:143-151 | the day of interest is a weekend day iff the run keeps a weekend day, or rolls back from a Sunday |
| `Timesheets.GetDayOfInterest` | app/timesheets.js:135-155 | from the two clock readings, moving a fresh moment in place (`day(wd - 3)` on Monday, `day(wd - 1)` then `hour(19)` otherwise) yields exactly `DayOfInterest` |
| `Timesheets.Link` | app/timesheets.js:75-89 | a record exists iff some chat member has the user's email; it pairs the user with a member of that email taken from the list |
| `Timesheets.MapUsers` | app/timesheets.js:49-96 | throws `Not okay` iff the chat answer is not ok; every record has a live member (`deleted` strictly false) with the user's email, and an active, non-contractor, non-excluded user, both from the inputs |
| `Timesheets.LinkedRecordsHold` | app/timesheets.js:57-88 | each record built from the filtered lists satisfies the per-record conditions above |
| `Timesheets.MapUsersLinksExactlyLinkable` | app/timesheets.js:56-95 | the linked users are exactly the eligible users with a live email match, in time-tracking order, one record per such user |
| `Timesheets.MapUsersPairsFirstLiveMatch` | app/timesheets.js:75-89 | each linked user is paired with the first live chat member of the same email |
| `Timesheets.FoundIsFirstLiveMatch` | app/timesheets.js:77-79 | the member `find` returns is the first live member with that email |
| `Timesheets.AttachEntries` | app/timesheets.js:185-199 | each linked user, in order, gets the entries the report returns for its id and the day of interest |
| `Timesheets.UsersOfInterest` | app/timesheets.js:201-213 | the users to nag are exactly those with an empty entry list, in input order, one per such position |
| `Timesheets.MentionRoundTrip` | app/timesheets.js:104-106 | a mention reads back as the member's id and name when the id holds no bar character |
| `Timesheets.NagMessage` | app/timesheets.js:100-114 | the message starts with `Hey ` followed by the joined mentions, and ends with the weekday name and `? ` |
| `Timesheets.CheckTimeSheets` | app/timesheets.js:158-219 | holiday on the day of interest: `isHoliday` result, no join; failed join: `Error: Not okay`; otherwise the users with no entries for that day, with a message iff there are any |
| `Calendar.WeekdayNameIdentifiesWeekday` | app/timesheets.js:101 | the `dddd` name of a day determines its weekday and vice versa |
| `Timesheets.NagMessageNamesWeekday` | app/timesheets.js:100-114 | for the same users, two days give the same nag text iff they share a weekday |
| `BillablePercentage.IsUndefined` | app/billable-percentage.js:14-23 | true iff at least one named key is not an own property of the object |
| `BillablePercentage.EntriesUrl` | app/billable-percentage.js:33-34 | the URL starts `/projects/<id>/entries?from=` and ends in `yes` iff the billable flag is set |
| `BillablePercentage.EntriesByProject` | app/billable-percentage.js:26-36 | fails with the source's message, and requests nothing, iff `project_id`, `from` or `to` is missing; otherwise requests exactly `/projects/<id>/entries?from=<from>&to=<to>&billable=` followed by `yes` or `no`, `yes` iff `billable` is truthy |
| `BillablePercentage.ProjectOptions` | app/billable-percentage.js:149-160 | the options passed per project carry all three required keys and the intended billable flag |
| `BillablePercentage.WindowStart` | app/billable-percentage.js:111-115 | the start is 0 to 6 whole days before the second reading, on weekday (days between the readings) mod 7: with both readings on one day it is a Sunday in the same Sunday-started week (the second reading itself on a Sunday), and a midnight between them puts it on a Monday |
| `BillablePercentage.RecentProjects` | app/billable-percentage.js:126-136 | keeps exactly the projects whose latest record is not before the window start (or unknown), in order |
| `BillablePercentage.NonEmptyResults` | app/billable-percentage.js:179-184 | drops exactly the results whose billable and non-billable lists are both empty, keeping the rest in order |
| `BillablePercentage.Accumulate` | app/billable-percentage.js:70-102 | the concatenate-then-sum loops compute exactly `Summary`: the billable and non-billable hour sums, their total, the ratio and the rounded percent |
| `BillablePercentage.SumHoursAppend` | app/billable-percentage.js:83-89 | summing the concatenated lists adds the sums of the parts |
| `BillablePercentage.SumHoursPermutation` | app/billable-percentage.js:78-89 | the hour sum over the concatenated lists does not depend on the order of the results |
| `BillablePercentage.AccumulatorIgnoresOrder` | app/billable-percentage.js:78-100 | permuting the results changes none of the hours, the percentage or the rounded percent |
| `BillablePercentage.PercentageInRange` | app/billable-percentage.js:92-100 | with non-negative hours and a positive total, the percentage is in [0, 1] and the rounded percent is the least whole number not below it, in 0..100 |
| `BillablePercentage.ShareBounds` | app/billable-percentage.js:92-100 | a part of a positive whole divides to [0, 1], and its percent rounds up into 0..100 |
| `BillablePercentage.FourOfTenHoursIsFortyPercent` | app/billable-percentage.js:83-100 | 4 billable and 6 non-billable hours give a total of 10, a percentage of 0.4 and 40 |
| `BillablePercentage.PercentageMessage` | app/billable-percentage.js:40-45 | the text starts with the fixed sentence and ends with `%.`; a non-negative percent appears as decimal digits that read back as the percent |
| `BillablePercentage.FetchProjectEntries` | app/billable-percentage.js:145-174 | one project's result holds the billable report then the non-billable report over the window |
| `BillablePercentage.FetchResults` | app/billable-percentage.js:141-176 | the fetch stage's result has exactly one entry per project, and entry `i` is project `i` with its billable and non-billable entries over the window |
| `BillablePercentage.FetchAll` | app/billable-percentage.js:141-176 | the loop over the projects yields `FetchResults` of them: one result per project, in order |
| `BillablePercentage.GetPercentage` | app/billable-percentage.js:105-192 | a run reports the `Summary` of the non-empty results fetched for the recent projects, from the window start to the first reading's date, and announces its rounded percent |
| `Js.Divide` | app/billable-percentage.js:92 | division is finite iff the divisor is non-zero, and then multiplies back; `NaN` iff both are zero |
| `Js.CeilPercent` | app/billable-percentage.js:100 | a finite share becomes a whole number, the least one not below its hundredfold (less than one above it); `NaN` and infinities pass through unchanged |
| `Js.Ceil` | app/billable-percentage.js:100 | `Math.ceil` gives the least integer not below its argument |
| `Js.NatToStringRoundTrip` | app/billable-percentage.js:41-45 | the decimal text of a number reads back as that number |
| `Seqs.Map` | app/billable-percentage.js:141 | `map` yields one result per element, result `i` being the callback applied to element `i` |
| `Seqs.Filter` | app/timesheets.js:57-59 | `filter` keeps exactly the elements that pass, in order, as many as the input has passing positions |
| `Seqs.Find` | app/timesheets.js:37 | `find` returns nothing iff no element passes, and otherwise a passing element with no passing element before it |
| `Seqs.IndexOf` | app/timesheets.js:64 | `indexOf` is -1 iff the element is absent, and otherwise its first position |
| `Seqs.FindAfterFilter` | app/timesheets.js:57-79 | searching the filtered list finds what a search of the whole list finds for both tests at once |
| `Seqs.FilterFilter` | app/timesheets.js:57-93 | two filters in a row keep what passes both |

## Left out

- HTTP routes, server start-up, client construction and configuration lookups are left out. The clock, holiday list, exclusion list and chat/time-tracking answers are parameters instead.
- The throttled promise pipelines are left out: the per-item delays (`200 * index` ms for users, `500 * index` ms for projects) and concurrent scheduling. The fetch stages are modelled as sequential, order-preserving loops and maps over a report function passed in as a parameter.
- Failed fetches are left out. In the source a failing report call resolves to `undefined`, and the next stage then crashes on `entries.length` or `.spread`. Nothing is recovered there, so the model's report functions always answer.
- The fetch stage's in-place `user.entries = entries` is modelled as building new records (`AttachEntries`). The records are never shared, so aliasing plays no part.
- Sending the webhook message and logging are left out.
- Parsing `DD-MM-YYYY` holiday strings and ISO latest-record timestamps is left out. Formatting dates as `YYYYMMDD` is a parameter (`formatDate`), and the user report takes the day number. Time zones and daylight-saving shifts are not modelled.
- `Humanize.oxford` is a foreign library, passed in as a function parameter. Only the text around it is specified.
- Timesheets.NagMessage: states the prefix, the joined mentions and the suffix, not the exact middle text of the question.
- Hours are exact reals, not IEEE doubles, so rounding errors in the sums and the percentage are not modelled.
- Js.IntToString: renders integers in plain decimal, whereas JavaScript switches to exponent form from 10^21.
- BillablePercentage.PercentageMessage: only takes whole or non-finite percents, which are the only values the flow passes to it.
- A time-tracking user's email is always a string. A chat member's email may be missing, and such a member never matches.
- Values of the report options other than `undefined`, `null`, booleans, integers and strings are not modelled. Properties inherited through the prototype chain are not modelled either.
- `app.js` is not part of this model. It holds Express bootstrap and an unfiltered copy of the join.
