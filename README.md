# eco_counter_bot — a Dafny model of the aggregation engine

eco_counter_bot posts a daily tweet about bicycle traffic in Luxembourg City:

- It fetches the daily counts of three counting stations (Viaduc, Pfaffenthal-Lift, Glacis) from the Eco-Visio service.
- It flattens the per-counter series into one combined series.
- It ranks the counters by yesterday's count.
- It compares this week's total so far with the same days of the preceding week.

This project models that engine and proves what it promises. The engine exists in two revisions, and both are modelled side by side:

- **Current revision** (`eco_counter_bot/`). `flatten` is best effort:
  - mismatching series are only logged;
  - the result is a fresh series shaped like the first longest input;
  - counts are summed by date.
- **Legacy revision** (`src/eco_counter_bot/counter.py`). `flatten` fails hard:
  - it raises `CounterDataMismatch` on any difference in length, first date or last date;
  - otherwise it sums by position into the first argument's own data points and returns that list;
  - the caller's first series therefore becomes the combined series.

Modules, in dependency order:

| file | module | contents |
|---|---|---|
| `wrappers.dfy` | `Wrappers` | `Option` and `Result` |
| `calendar.dfy` | `Calendar` | Python `date` semantics on (year, month, day) triples: ordinal, weekday, comparison, day arithmetic, ISO week numbers |
| `text.dfy` | `Text` | decimal digits, zero padding, `str(int)`, `int(str)`, `str.split` |
| `models.dfy` | `Models` | the records of `models.py`, the interval codes, the counter registry, the exceptions as an `Error` value |
| `sums.dfy` | `Sums` | left-to-right sums (`reduce`): additivity, order independence |
| `series.dfy` | `Series` | `get_count_for_day`, `filter_counts_by_date`, `sum_counts`; both revisions share them |
| `ranking.dfy` | `Ranking` | the stable descending `sorted` |
| `counter_service.dfy` | `CounterService` | current `flatten` (function and imperative method), `get_counts_for_period`, `extract_highlights` |
| `counter_api.dfy` | `CounterApi` | request and response date formats, the exclusive request end date, response decoding |
| `legacy_counter.dfy` | `LegacyCounter` | legacy `get_counts`, the in-place `flatten` over arrays, the week windows and the report script |
| `bot.dfy` | `Bot` | periods, week label, percentage and arrow, tweet values, `publish_yesterdays_results` |
| `grapher.dfy` | `Grapher` | `get_count_for` and the per-day value lists and cutoff index of the yearly chart |

Representation choices:

- **Dates** are `Calendar.Date` triples with Python's semantics:
  - the proleptic Gregorian ordinal of `toordinal()`;
  - `weekday() = (ordinal + 6) % 7`;
  - lexicographic comparison;
  - `isocalendar().week` via `_isoweek1monday`.
- **Day arithmetic** (`timedelta`) is `NextDay`, `PrevDay` and `AddDays`.
- **Exceptions** are values of `Models.Error` inside a `Result`, so every error path of the source is an `Err` case.
- **I/O**:
  - the HTTP service is a function parameter (`CounterApi.Server`, or `CounterService.Fetch` for a whole period);
  - "today" is a parameter everywhere;
  - the tweet service is a small class that records what it posted.
- **Warnings** that the current `flatten` logs are returned as a trace of `Warning` values.
- **Mutation**:
  - the current `flatten` works on a fresh `array`;
  - the legacy `flatten` mutates the caller's first `array` and returns it, and its contract says exactly what list-level aliasing (an argument that is the first list itself) does.

Where the code and its description disagree, the model follows the code:

- The current `flatten` raises `IndexError` for an empty series anywhere in the list, not only for an empty first series (eco_counter_bot/counter_service.py:35).
- `publish_yesterdays_results` catches errors only while getting highlights (eco_counter_bot/bot.py:50-59). The percentage at line 63 and the top-3 slots at lines 70-75 lie outside that `try`. The entry point has no handler either. So a zero current total (`ZeroDivisionError`) or fewer than three counters (`IndexError`) escapes.
- The week-over-week percentage divides by the current period's total (eco_counter_bot/bot.py:63). The legacy script divides by last week's total (src/eco_counter_bot/counter.py:120). Each is modelled as written.

## Model

| member | source | states |
|---|---|---|
| Calendar.NextDay | eco_counter_bot/counter_api.py:20 | `date + timedelta(days=1)` is a valid date whose ordinal is one more |
| Calendar.MondayOf | eco_counter_bot/bot.py:41 | `d - timedelta(days=d.weekday())` is a Monday, exactly `weekday(d)` days before `d` |
| Calendar.OrdinalMonotone | eco_counter_bot/counter_service.py:64 | Python's date comparison agrees with the order of ordinals, and equal ordinals mean equal dates |
| Calendar.PrevDay | eco_counter_bot/bot.py:38 | `date - timedelta(days=1)`: a valid date whose day ordinal is one less |
| Calendar.AddDays | eco_counter_bot/bot.py:41-47 | `date + timedelta(days=k)` for any integer k (negative for the week and day offsets in the source, also src/eco_counter_bot/counter.py:93-96): a valid date whose ordinal is moved by exactly k |
| Calendar.SameIsoWeekAsPrevDay | eco_counter_bot/bot.py:27-30 | a day and the day before it have the same ISO week number exactly when the day is not a Monday, across year boundaries too |
| Models.IntervalCode | src/eco_counter_bot/models.py:6-9 | the code sent to the API is 4 exactly for days, 5 exactly for weeks and 6 exactly for months |
| Models.IntervalCodeInjective | src/eco_counter_bot/models.py:6-9 | distinct intervals have distinct codes, so the code identifies the interval |
| Models.Registry | src/eco_counter_bot/counters.py:5-9 | exactly three counters, with pairwise distinct ids |
| Sums.SumOfPermutation | eco_counter_bot/counter_service.py:66-67 | a `reduce` sum depends only on the multiset of its summands |
| Series.GetCountForDay | eco_counter_bot/counter_service.py:16-25 | `NoDataFound(day)` exactly when no point has that date, the empty series included; otherwise the count of the first point with that date |
| Series.GetCountForDayPrefix | src/eco_counter_bot/counter.py:56-62 | the lookup takes the first match: once a series has the day, appending points does not change what is found (the legacy lookup, the same rule, is `Series.GetCountForDay`) |
| Series.FilterCountsByDate | eco_counter_bot/counter_service.py:63-64 | the result holds only points with `start <= date <= end`, both bounds inclusive under Python's date order |
| Series.FilterKeepsExactlyInWindow | eco_counter_bot/counter_service.py:63-64 | the filtered series is a subsequence of the input, and keeps every in-window point exactly as often as it occurs, so only out-of-window points are dropped |
| Series.FilterConcat | eco_counter_bot/counter_service.py:63-64 | filtering distributes over concatenation |
| Series.FilterKeepsAll | src/eco_counter_bot/counter.py:86-87 | a window containing every date keeps the whole series, so both bounds are inclusive |
| Series.FilterEmptyWindow | src/eco_counter_bot/counter.py:86-87 | a window that ends before it starts keeps nothing |
| Series.SumCountsAdditive | eco_counter_bot/counter_service.py:66-67 | `Series.SumCounts` (`sum_counts`, also src/eco_counter_bot/counter.py:89-90): `sum_counts([]) == 0` and the sum of a concatenation is the sum of the sums |
| Series.SumCountsNonNegative | src/eco_counter_bot/counter.py:89-90 | sums of non-negative counts are non-negative |
| Series.SumCountsExample | src/eco_counter_bot/counter.py:89-90 | the identity is 0, and counts 5 and 7 sum to 12 |
| Ranking.SortDescending | eco_counter_bot/counter_service.py:83 | the ranking is sorted by descending count, a permutation of its input, and stable: for every count, the entries with that count keep their input order |
| Ranking.TieKeepsOrder | eco_counter_bot/counter_service.py:83 | when all counts are equal the ranking is the input order |
| Ranking.RankingExample | src/eco_counter_bot/counter.py:112 | glacis 10, viaduc 30, lift 20 rank as viaduc, lift, glacis |
| CounterService.LongestIndex | eco_counter_bot/counter_service.py:41 | `max(key=len)` picks a longest series, and the first such on ties |
| CounterService.FlattenByDate | eco_counter_bot/counter_service.py:27-61 | `IndexError` exactly when there is no series or some series is empty; never a mismatch error; otherwise a non-empty series in which each point's count is the sum over all inputs of their first point on that date, inputs lacking it adding 0 |
| CounterService.FlattenSpine | eco_counter_bot/counter_service.py:41-48 | the flattened series has exactly the dates, in order, of the first of the longest inputs |
| CounterService.MismatchReported | eco_counter_bot/counter_service.py:33-39 | a `LikelyMismatch` warning is logged exactly when some series differs from the first in length, first date or last date |
| CounterService.CheckSeries | eco_counter_bot/counter_service.py:28-39 | the validation loop succeeds exactly when there is a series and none is empty; it then logs one mismatch warning per mismatching series, in order |
| CounterService.AddMatches | eco_counter_bot/counter_service.py:51-59 | one inner pass adds each spine date's first matching count of one series in place, and logs each spine date that series lacks |
| CounterService.SumIntoSpine | eco_counter_bot/counter_service.py:50-59 | the nested loops turn a zero-count spine into that spine's dates with their totals over all series, logging the missing points series by series |
| CounterService.Flatten | eco_counter_bot/counter_service.py:27-61 | the imperative `flatten` returns exactly `FlattenByDate` of its input; its warnings are the mismatch warnings followed by the missing-point warnings; the input series are values and are not changed |
| CounterService.FlattenSingle | eco_counter_bot/counter_service.py:27-61 | flattening a single series with distinct dates gives that series back |
| CounterService.FlattenPermutation | eco_counter_bot/counter_service.py:50-59 | reordering the series does not change the flattened result when all series carry the same dates in the same order |
| CounterService.GetCountsForPeriod | eco_counter_bot/counter_service.py:69-75 | each counter is paired with its fetched series, in the counters' order; the first failing fetch fails the whole call with its error |
| CounterService.CountsForDay | eco_counter_bot/counter_service.py:82 | every counter with its count on the day, in order; `NoDataFound(day)` exactly when some counter lacks the day |
| CounterService.ExtractHighlights | eco_counter_bot/counter_service.py:77-90 | a flatten error is `IndexError`; on success the highlights hold the flattened series, its last count as the most recent total, and `sum_counts` of it as the period total |
| CounterService.HighlightsNoData | eco_counter_bot/counter_service.py:82 | once flattening succeeds, the highlights fail exactly when some counter lacks the most recent date, with `NoDataFound` of that date |
| CounterService.HighlightsRanking | eco_counter_bot/counter_service.py:77-90 | the ranking is the counters' most-recent counts sorted descending, a permutation, stable; these counts add up to the most recent flattened total |
| CounterApi.FormatDate | eco_counter_bot/counter_api.py:13-14 | `strftime` gives ten characters: three '/'-separated, zero-padded decimal fields of widths 2, 2 and 4 holding day, month and year in the requested order |
| CounterApi.ParseDate | eco_counter_bot/counter_api.py:16-17 | `strptime` yields only dates of years 1 to 9999, and every failure is a `ValueError` |
| CounterApi.FormatParseRoundTrip | eco_counter_bot/counter_api.py:13-17 | parsing a rendered date with the same field order gives the date back |
| CounterApi.ParseFromApiReadsMonthFirst | eco_counter_bot/counter_api.py:16-17 | `CounterApi.ParseFromApi` reads a response date `MM/DD/YYYY` is read as that date: the first field is the month |
| CounterApi.RequestDateReadAsResponse | eco_counter_bot/counter_api.py:13-17 | a request-format date read in response format has day and month swapped, and fails when its day exceeds 12; the two formats agree only when day equals month |
| CounterApi.RequestValues | eco_counter_bot/counter_api.py:19-26 | the request's start string is `FormatForApi(start)` and its end string is `FormatForApi` of the day after the inclusive end; each reads back as that date; the interval's code is sent; the end 9999-12-31, and only it, raises `OverflowError` |
| CounterApi.FormatForApi | eco_counter_bot/counter_api.py:13-14 | a request date is ten characters `DD/MM/YYYY`: '/' at positions 2 and 5, and zero-padded digit fields holding the day (two digits), the month (two) and the year (four) |
| CounterApi.DecodeRow | eco_counter_bot/counter_api.py:37 | a row decodes to its parsed date and integer count; the first failing step decides the error: a missing field is `IndexError`, an unparsable one `ValueError` |
| CounterApi.DecodeRows | eco_counter_bot/counter_api.py:37 | one point per row, in order; otherwise the error of the first row that fails |
| CounterApi.DecodeResponse | eco_counter_bot/counter_api.py:34-37 | a non-200 status is an `EcoCounterApiError` carrying the body and yields no data; status 200 decodes the rows |
| CounterApi.DecodeEncode | eco_counter_bot/counter_api.py:37 | a 200 response carrying a series' rows decodes to exactly that series |
| CounterApi.GetCounts | eco_counter_bot/counter_api.py:19-37 | the fetch asks the server with the request values and decodes its answer; an overflowing end date fails before any request |
| CounterApi.GetCountsFromFaithfulServer | eco_counter_bot/counter_api.py:19-37 | a server that answers with a series' rows hands exactly that series to the caller |
| LegacyCounter.RequestAsGiven | src/eco_counter_bot/counter.py:44-49 | the legacy request's date strings are `FormatForApi(start)` and `FormatForApi(end)`, the end not advanced; each reads back as the date given; the interval's code is sent |
| LegacyCounter.GetCounts | src/eco_counter_bot/counter.py:44-54 | a non-200 status is an `EcoCounterApiError` with the body; a 200 response is decoded row by row as the current revision does, failing with the first bad row's error and otherwise giving one point per row, in order |
| LegacyCounter.LegacyFetchEndsADayEarlier | src/eco_counter_bot/counter.py:44-49 | the legacy fetch up to `end` is the current fetch of the inclusive range ending the day before `end` |
| LegacyCounter.FirstFailure | src/eco_counter_bot/counter.py:73-78 | the validation loop succeeds exactly when every series is non-empty and matches the first; otherwise the first failing series decides: `IndexError` if empty, `CounterDataMismatch` if it differs |
| LegacyCounter.CheckError | src/eco_counter_bot/counter.py:68-78 | no error exactly when there is a non-empty first series and every series matches it, so all have one length; every error is `IndexError` or `CounterDataMismatch` |
| LegacyCounter.Validate | src/eco_counter_bot/counter.py:68-78 | the loop over the arrays raises exactly `CheckError` of their contents |
| LegacyCounter.AddInto | src/eco_counter_bot/counter.py:82-83 | one inner pass adds `other[i].count` to `flattened[i].count` for every index, reading each `other[i]` before writing index `i`, so it doubles when `other` is `flattened` |
| LegacyCounter.SumIntoFirst | src/eco_counter_bot/counter.py:79-84 | the summing loops leave `IndexFlatten` of the old contents in the first array and change no other array |
| LegacyCounter.Flatten | src/eco_counter_bot/counter.py:68-84 | on a validation error nothing changes; otherwise the result is the first array itself holding `IndexFlatten` of the old contents (list-level aliasing included), and every other array is unchanged |
| LegacyCounter.IndexFlattenSumsColumns | src/eco_counter_bot/counter.py:79-84 | without aliasing, the point at index `i` keeps the first series' date and carries the sum of the index-`i` counts of all series, by position and not by date |
| LegacyCounter.RepeatedFirstAddsRunningTotal | src/eco_counter_bot/counter.py:79-83 | aliasing is observable: `flatten(a, b, a)` yields `2a + 2b`, not `2a + b` |
| LegacyCounter.AgreesWithFlattenByDate | src/eco_counter_bot/counter.py:79-84 | when all series share the first series' dates, in order and without repeats, the legacy sum by position equals the current sum by date |
| LegacyCounter.WeekWindows | src/eco_counter_bot/counter.py:92-96 | this week starts on the Monday of today's week and ends yesterday; last week's window is that one shifted back exactly seven days at both ends |
| LegacyCounter.PercentageChange | src/eco_counter_bot/counter.py:120 | `ZeroDivisionError` exactly when last week's total is 0; otherwise the value times last week's total is 100 times the difference |
| LegacyCounter.Report | src/eco_counter_bot/counter.py:106-120 | yesterday's counts (`NoDataFound` first), ranked; totals of the combined series over last week's window and from this week's Monday up to today; their percentage change (`ZeroDivisionError` next) |
| LegacyCounter.Script | src/eco_counter_bot/counter.py:104-120 | the script as written: flatten into glacis, then read yesterday's counts from the mutated glacis series |
| LegacyCounter.CorrectedScript | src/eco_counter_bot/counter.py:104-110 | the same script with yesterday's counts read before flattening, so every counter is ranked with its own count |
| LegacyCounter.GlacisRankedWithCombinedCount | src/eco_counter_bot/counter.py:104-110 | glacis 5, viaduc 30, lift 20: after flattening, glacis's series holds 55 for the day, against its own 5 |
| LegacyCounter.MondayDividesByZero | src/eco_counter_bot/counter.py:114-120 | on a Monday, once yesterday's counts are found, the report is `ZeroDivisionError`: last week's window is empty |
| Bot.CurrentPeriod | eco_counter_bot/bot.py:40-43 | the current period runs from the Monday of yesterday's week to yesterday; start <= end, and end − start = weekday(yesterday) ≤ 6 |
| Bot.ReferencePeriod | eco_counter_bot/bot.py:45-48 | the reference period is the current one shifted back exactly seven days at both ends |
| Bot.ReferenceIsPrecedingWeek | eco_counter_bot/bot.py:40-48 | the reference period starts on a Monday, is as long as the current one, and ends before the current one starts |
| Bot.CurrentPeriodKeepsYesterday | eco_counter_bot/bot.py:40-43 | the current window always contains yesterday, so yesterday's points survive filtering, Mondays included |
| Bot.WeekReference | eco_counter_bot/bot.py:76 | with `Bot.IsCurrentWeek` (`is_current_week` at eco_counter_bot/bot.py:27-30, equal ISO week numbers) applied to yesterday, the label is "This" exactly when today is not a Monday (yesterday in today's ISO week), and "Last" otherwise |
| Bot.ChangeEmoji | eco_counter_bot/bot.py:79 | the down-right arrow is chosen exactly when the percentage change is negative, the up-right arrow otherwise (zero included) |
| Bot.PercentageChange | eco_counter_bot/bot.py:63 | `ZeroDivisionError` exactly when the current total is 0; otherwise the value times the current total is 100 times (current − reference) |
| Bot.EmojiSign | eco_counter_bot/bot.py:79 | the arrow points down exactly when the change is negative: for a positive current total, exactly when it is below the reference total |
| Bot.DayMonth | eco_counter_bot/bot.py:68 | `strftime("%d/%m")` is a zero-padded two-digit day, '/', and a two-digit month |
| Bot.TweetParamsFor | eco_counter_bot/bot.py:63-81 | the percentage is computed first (`ZeroDivisionError`), then slots 1-3 take name and count from ranked entries 0-2 (`IndexError` with fewer than three); the totals, label and arrow are mapped field by field |
| Bot.ApiFetch | eco_counter_bot/counter_service.py:69-75 | the period fetch calls `get_counts` with the period's start and end and the DAYS interval |
| Bot.HighlightsFor | eco_counter_bot/bot.py:32-34 | a failing fetch's error, otherwise `extract_highlights` of the fetched counters |
| Bot.PlanFor | eco_counter_bot/bot.py:36-81 | abort exactly when getting either period's highlights fails, current first, logging `NoDataFound` as a warning and anything else as an error; an error building the tweet is raised; otherwise the tweet values |
| Bot.ZeroCurrentTotalRaises | eco_counter_bot/bot.py:50-63 | a zero current total is raised as `ZeroDivisionError` rather than caught |
| Bot.TweetService.TweetThread | eco_counter_bot/bot.py:89-93 | a post appends the message when the service accepts it and reports whether it did |
| Bot.PublishYesterdaysResults | eco_counter_bot/bot.py:36-93 | at most one tweet is posted, only when the plan is to send one; aborts and raised errors post nothing; a failing tweet is reported, not raised; the service's accepting state is unchanged |
| Grapher.GetCountFor | eco_counter_bot/grapher.py:16-17 | the count of the first point on the same month and day, or `None` exactly when no point matches |
| Grapher.YearIgnored | eco_counter_bot/grapher.py:17 | the queried day's year plays no part in the lookup |
| Grapher.PointAlignsOnCalendarDay | eco_counter_bot/grapher.py:31 | a point of another year supplies the value of the same month and day in the current year, when it is the first on its calendar day |
| Grapher.YearDays | eco_counter_bot/grapher.py:23-29 | the chart's days are every day of the current year, Jan 1 to Dec 31, where day `i` is the year's day `i + 1` |
| Grapher.YearlyPlotValues | eco_counter_bot/grapher.py:19-32 | `IndexError` exactly when either series is empty; otherwise the chart's days are exactly `YearDays` of the current series' first year (every day from Jan 1 to Dec 31, consecutive), both value lists have one entry per day, aligned on those days, and the cutoff index is the last point's day-of-year minus 1, in `[0, days in year)` |
| Grapher.CutoffIndexesLastDay | eco_counter_bot/grapher.py:26-27 | when the current series ends in its first year, the cutoff index selects the last point's day, and the current values hold a count for it |

## Left out

- The HTTP requests (`requests.get`) and `string.Template.substitute`. The service's answer is a parameter: a status, a body text and the JSON rows. The counters' URL templates are not modelled.
- JSON value types: response rows are modelled as strings. `int()` is modelled on an optional sign followed by decimal digits, without Python's whitespace and underscore rules.
- The tweet text and thread splitting, the tweepy client and the configuration (`tweet_service.py`). The tweet is the record of its template values. Posting is `TweetService.TweetThread`, which succeeds when its `accepting` flag is set.
- Logging output. The current `flatten`'s warnings are returned as a trace. When `check_series` or `flatten` goes on to raise `IndexError`, the warnings logged before it are not kept in the error result. The bot's log levels are part of its outcome. Debug messages are omitted.
- The wall clock: "today" is a parameter.
- Floating-point rounding: percentages are reals, and `round(…, 1)` is not modelled.
- The plotting in `grapher.py` after line 32 (pandas and plotly figures, image files).
- `__main__.py` and the module-level prints of the legacy script.
- CounterApi.FormatDate: the year is always padded to four digits, as `%Y` is on platforms that pad it; glibc's `strftime` prints years below 1000 unpadded. No date the bot fetches is that early.
- Calendar: the calendar is unbounded. Python's `OverflowError` outside years 1 to 9999 is modelled only for the fetch's end date (`CounterApi.RequestValues`). The week-window arithmetic has no such overflow.
- Calendar.Valid: `Date` is a plain triple, and functions on dates require `Valid`, as Python's `date` constructor guarantees.
- LegacyCounter.Script: requires three distinct arrays, as three separate `get_counts` calls produce. `LegacyCounter.Flatten` itself handles list-level aliasing: any argument may be the first list itself.
- LegacyCounter.Flatten: data points are values, so two distinct lists that share point objects (such as `flatten(a, b, a[:])`, where Python adds into the copy's shared points too) are not modelled; the script's lists come from separate `get_counts` calls, which build fresh points.
- LegacyCounter.GetCounts: the response's status and rows come from a server function. The URL is not built.
- NoDataFoundException's message text: only the day is kept.
- The `EcoCounterApiError` message prefix "Error while making request:": only the body is kept.

## Findings

| source | as written | input that shows it | evidently intended | confidence | as-written member | corrected member |
|---|---|---|---|---|---|---|
| src/eco_counter_bot/counter.py:104-110 | `flatten(glacis_data, viaduc_data, lift_data)` sums into `glacis_data` in place, and yesterday's counts are read from it afterwards | one day with glacis 5, viaduc 30, lift 20: glacis is ranked with 55 | each counter ranked with its own count | not executed | LegacyCounter.GlacisRankedWithCombinedCount | LegacyCounter.CorrectedScript |
| src/eco_counter_bot/counter.py:93-120 | windows are anchored on today; on a Monday this week's window `[today, today − 1]` is empty, so last week's is too, and the percentage divides by 0 | any Monday, such as 2024-01-01, with yesterday's data present | compare two non-empty windows; the later bot anchors both on yesterday | not executed | LegacyCounter.MondayDividesByZero | Bot.CurrentPeriodKeepsYesterday |
