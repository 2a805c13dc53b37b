# Token usage summary: a Dafny model

The application shows how many tokens Claude has used. It reads the statistics
snapshot `~/.claude/stats-cache.json` (the `StatsCache` record).

- A Rust back end sets the tray title to the current UTC month's token total, formatted
  with a B/M/K suffix. It refreshes that title whenever the watched file is modified or
  created, and after 60 seconds without any notification. A notification of any kind
  restarts that wait, so other files' events and watch errors can postpone the periodic refresh.
- A TypeScript front end (the popover) shows aggregates over the same snapshot:
  - token totals per kind;
  - per-model summaries, largest first;
  - per-day totals of one month;
  - one month's message, session and tool-call counts.
- It formats token counts, costs in cents and model names for display.

This project models that core and proves what it promises.

| file | module | models |
|---|---|---|
| `stats_model.dfy` | `StatsModel` | The snapshot's records (`StatsCache`, `DailyActivity`, `DailyModelTokens`, `ModelUsage`, `LongestSession`) and the front end's `ModelSummary` and `DailyTokens`, as datatypes. A JSON object keyed by strings is the sequence of its `(key, value)` entries in iteration order. |
| `token_format.dfy` | `TokenFormat` | `format_tokens` and `formatTokens`. They share the bracket rule and one definition here; they differ only in how they round exact halves (see "## Left out"). |
| `calendar.dfy` | `Calendar` | `current_month_prefix` as an imperative method over the clock reading, proved against a calendar specification (`MonthOf`). |
| `month_tokens.dfy` | `MonthTokens` | `current_month_tokens`. |
| `polling.dfy` | `Polling` | The watcher loop as a method over the sequence of receive outcomes, proved against a refresh count. |
| `stats.dfy` | `Stats` | The `compute*` aggregates. |
| `format.dfy` | `Format` | `formatCostCents` and `formatModelName`. |
| `common.dfy`, `decimal.dfy`, `seqs.dfy`, `text.dfy` | `Common`, `Decimal`, `Seqs`, `Text` | `Option`; decimal digit strings; folds, filters and maps over sequences; the JavaScript string operations `startsWith`, `replace`, `split`, `join` and first-letter upper-casing. |

How the source's own features are represented:

- The clock is a parameter: `now` is the number of seconds since the Unix epoch.
- Rust's `u64 as i32` cast of the day count is modelled (`Calendar.AsI32`), including
  its wrap-around to negative values. A negative day count gives "1970-01", as the
  source's loops do.
- Scaling by 10^9, 10^6 or 10^3 with one decimal is integer arithmetic. The count is
  rounded to the nearest tenth of the unit, and an exact half rounds up.

## Model

| member | source | states |
|---|---|---|
| TokenFormat.FormatTokens | src-tauri/src/lib.rs:81-91 | The bracket rule of `format_tokens` and of `formatTokens` (src/lib/format.ts, lines 1-10). It has no ensures of its own: `FormatTokensBracket`, `FormatTokensPlain` and `FormatTokensNearest` carry its contract. |
| TokenFormat.RoundedTenths | src-tauri/src/lib.rs:83-87 | The number of tenths shown is `n / unit` rounded to the nearest tenth: twice it, times the unit, is within one unit of `20 n`. |
| TokenFormat.FormatTokensBracket | src-tauri/src/lib.rs:81-91 | Exactly one bracket applies, chosen by the unscaled count. The result ends in 'B' iff n ≥ 10^9, in 'M' iff 10^6 ≤ n < 10^9, and in 'K' iff 10^3 ≤ n < 10^6. It is all digits iff n < 1000. The front end's `formatTokens` (src/lib/format.ts, lines 1-10) follows the same descending-threshold rule, so this one definition stands for both. |
| TokenFormat.FormatTokensPlain | src-tauri/src/lib.rs:88-89 | Below 1000 the output is exactly `to_string` of the count: its own decimal digits with no leading zero, at most three of them, with no suffix and no point. |
| TokenFormat.ScaledNearest | src-tauri/src/lib.rs:83-87 | A scaled count reads "<digits>.<digit><suffix>", its integer part written without leading zeros. The decimal it shows is `n / unit` to within half a tenth. |
| TokenFormat.FormatTokensNearest | src-tauri/src/lib.rs:82-87 | From 1000 up the output is integer digits written without leading zeros, '.', one digit and the unit letter. The value shown, times that letter's unit, is the count to within half a tenth of the unit. |
| TokenFormat.FormatTokensExamplesPlain | src/lib/__tests__/format.test.ts:10-14 | 0, 1 and 999 give "0", "1" and "999". |
| TokenFormat.FormatTokensExamplesThousands | src/lib/__tests__/format.test.ts:16-20 | 1000, 1500 and 999999 give "1.0K", "1.5K" and "1000.0K": the threshold is compared before scaling. |
| TokenFormat.FormatTokensExamplesMillions | src/lib/__tests__/format.test.ts:22-26 | 10^6, 2.5·10^6 and 999999999 give "1.0M", "2.5M" and "1000.0M". |
| TokenFormat.FormatTokensExamplesBillions | src/lib/__tests__/format.test.ts:28-31 | 10^9 and 3.7·10^9 give "1.0B" and "3.7B". |
| Calendar.IsLeap | src-tauri/src/lib.rs:102-103 | The leap test of the year loop. Its contract is carried by `MonthsFillYear`: a year has 366 days exactly when February has 29. |
| Calendar.DaysInYear | src-tauri/src/lib.rs:102-103 | 366 days in a leap year, 365 otherwise. Its contract is carried by `MonthsFillYear`. |
| Calendar.MonthLengths | src-tauri/src/lib.rs:110-115 | Twelve month lengths, January first. With `MonthsFillYear` they add up to the year's length, with 29 days in February exactly in leap years. |
| Calendar.MonthsFillYear | src-tauri/src/lib.rs:102-115 | The twelve month lengths add up to the year's length. The year has 366 days exactly when February has 29, which is exactly the Gregorian leap rule. |
| Calendar.MonthWithinYear | src-tauri/src/lib.rs:101-109 | A day in month m of year y lies between the first day of y and the first day of y + 1. |
| Calendar.MonthOfUnique | src-tauri/src/lib.rs:98-124 | A day number lies in at most one (year, month). |
| Calendar.MonthOfExists | src-tauri/src/lib.rs:98-124 | Every day number from the epoch on lies in some (year, month) with the month in 1..12. |
| Calendar.MonthOf | src-tauri/src/lib.rs:98-124 | The specification of the two loops: the (year, month) a day number falls in. |
| Calendar.MonthOfRoundTrip | src-tauri/src/lib.rs:98-124 | Counting the days of the years before y, the days of the months before m and d more days, with d inside month m, lands in (y, m). |
| Calendar.AsI32 | src-tauri/src/lib.rs:100 | `days as i32` keeps the value modulo 2^32 in the i32 range, and leaves values below 2^31 unchanged. |
| Calendar.MonthPrefixShape | src-tauri/src/lib.rs:124 | For years below 10000, `{:04}-{:02}` is seven characters, with '-' at index 4, and the two digit groups read back as the year and the month. |
| Calendar.MonthPrefix | src-tauri/src/lib.rs:124 | `format!("{:04}-{:02}", y, m)`. Its contract is carried by `MonthPrefixShape`: seven characters that read back as the year and the month. |
| Calendar.MonthPrefixAtRoundTrip | src-tauri/src/lib.rs:93-125 | A clock reading that falls on day d of month m of year y (day count below 2^31) gives the prefix of (y, m). |
| Calendar.MonthPrefixAtDay | src-tauri/src/lib.rs:98-100 | When the day count of a clock reading is below 2^31, the `as i32` cast leaves it unchanged, and the prefix is that of the day's (year, month). |
| Calendar.CurrentMonthPrefix | src-tauri/src/lib.rs:93-125 | The year loop subtracts whole years and the month loop subtracts whole months. Both terminate; the year loop ends with remaining < days in year y, and the month loop ends with m in 1..12. The result is the prefix of `MonthOf` of the cast day count, or "1970-01" when the cast is negative. |
| MonthTokens.DayTotal | src-tauri/src/lib.rs:133-134 | The sum of one day's per-model counts, which the tray total and each popover row add up. Its contract is carried by `AllCountsSum` and `DailyTokensSumToMonthTotal`. |
| MonthTokens.AllCountsSum | src-tauri/src/lib.rs:133-134 | Summing the flattened per-model counts equals summing each day's total. |
| MonthTokens.CurrentMonthTokens | src-tauri/src/lib.rs:129-134 | The result is the sum over all days of that day's per-model total when its date starts with the prefix, and 0 otherwise. An empty list gives 0. |
| MonthTokens.CurrentMonthTokensIgnoresMapOrder | src-tauri/src/lib.rs:133 | Reordering one day's per-model map leaves the total unchanged. |
| MonthTokens.CurrentMonthTokensIgnoresDayOrder | src-tauri/src/lib.rs:129-134 | Reordering the days leaves the total unchanged. |
| MonthTokens.CurrentMonthTokensExample | src-tauri/src/lib.rs:127-135 | An in-month day with counts 5000 and 3000, plus a day of another month, gives 8000. |
| MonthTokens.CurrentMonthTokensAt | src-tauri/src/lib.rs:127-135 | With the clock as a parameter, the result is the month total for the prefix of the current UTC month. |
| Polling.FileName | src-tauri/src/polling.rs:26-28 | A path has a final name iff it has a last component other than `..`, and that component is the name. |
| Polling.AnyStatsPath | src-tauri/src/polling.rs:25-29 | True iff some path of the event has final name "stats-cache.json". |
| Polling.FirstDisconnect | src-tauri/src/polling.rs:44-45 | The index of the first disconnect, or the length when there is none. No outcome before it is a disconnect. |
| Polling.Watch | src-tauri/src/polling.rs:21-48 | The refreshes performed are the triggering outcomes before the first disconnect. A trigger is a timeout, or a Modify or Create event naming the stats file. The loop consumes every outcome up to and including the first disconnect, and nothing after it. |
| Polling.Triggers | src-tauri/src/polling.rs:22-46 | Which outcomes refresh the tray: a timeout, or a Modify or Create event one of whose paths is the stats file. Its contract is carried by `WatchStep` and `TriggerExamples`. |
| Polling.WatchStep | src-tauri/src/polling.rs:22-47 | One step of the loop. A disconnect ends the loop with no refresh. A timeout, or a Modify or Create event on the stats file, adds exactly one refresh. A watch error, or any other event, adds none. The loop then goes on. |
| Polling.WatchStopsAtDisconnect | src-tauri/src/polling.rs:44-45 | Outcomes after a disconnect never change the refresh count. |
| Polling.CountTriggersBound | src-tauri/src/polling.rs:21-48 | Each outcome yields at most one refresh. |
| Polling.NoDeduplication | src-tauri/src/polling.rs:31-42 | k triggering outcomes in a row give k refreshes; nothing is coalesced. |
| Polling.TriggerExamples | src-tauri/src/polling.rs:25-35 | These refresh: a Modify or Create event with the stats file among its paths. These do not: another file name; a Remove or Access event on the stats file; paths with no final name; no paths at all. |
| Stats.ComputeInputTokens | src/lib/stats.ts:23-30 | Empty usage gives 0, and one entry gives its input count. `KindTotalsAppend`, `KindTotalsIgnoreEntryOrder` and `InputTokensReadsOnlyInput` extend this to any number of models. |
| Stats.ComputeOutputTokens | src/lib/stats.ts:32-39 | Empty usage gives 0, and one entry gives its output count. `KindTotalsAppend`, `KindTotalsIgnoreEntryOrder` and `OutputTokensReadsOnlyOutput` extend this to any number of models. |
| Stats.ComputeCacheTokens | src/lib/stats.ts:41-48 | Empty usage gives 0, and one entry gives its cache-read plus cache-creation counts. `KindTotalsAppend`, `KindTotalsIgnoreEntryOrder` and `CacheTokensReadsOnlyCache` extend this to any number of models. |
| Stats.KindTotalsAppend | src/lib/stats.ts:23-48 | The input, output and cache totals of two lists of models together are the sums of their separate totals, so each total adds its own field over every model. |
| Stats.KindTotalsIgnoreEntryOrder | src/lib/stats.ts:23-48 | No per-kind total depends on the order `Object.values` lists the models in. |
| Stats.InputTokensReadsOnlyInput | src/lib/stats.ts:23-30 | Models that agree on `inputTokens`, position by position, have the same input total, whatever their other fields. |
| Stats.OutputTokensReadsOnlyOutput | src/lib/stats.ts:32-39 | Models that agree on `outputTokens`, position by position, have the same output total, whatever their other fields. |
| Stats.CacheTokensReadsOnlyCache | src/lib/stats.ts:41-48 | Models that agree on cache-read plus cache-creation counts, position by position, have the same cache total, whatever their other fields. |
| Stats.ComputeTotalTokens | src/lib/stats.ts:9-21 | The total is input + output + cache tokens, and empty usage gives 0. |
| Stats.TotalIgnoresSearchesAndCost | src/lib/stats.ts:12-19 | Web searches and cost do not change the total; only the four token counts matter. |
| Stats.TotalIgnoresEntryOrder | src/lib/stats.ts:12 | The total does not depend on the order `Object.values` lists the models in. |
| Stats.UsageTotalsExample | src/lib/__tests__/stats.test.ts:63-107 | For the two-model fixture: input 4000, output 6000, cache 2000, total 12000. |
| Stats.InsertByTotal | src/lib/stats.ts:66 | Inserting into a list sorted by decreasing total keeps it sorted, adds exactly that one element, and loses none. |
| Stats.InsertBehindHead | src/lib/stats.ts:66 | An element no larger than the head goes behind it, and the list stays sorted and complete. |
| Stats.SortByTotalDesc | src/lib/stats.ts:66 | The result is sorted by non-increasing total and is a permutation of the input. |
| Stats.ComputeModelSummaries | src/lib/stats.ts:50-67 | There is one summary per entry, and empty usage gives []. The summaries are a permutation of the entries' summaries, each carrying the four counts unchanged. They are sorted by non-increasing total, and each total is the sum of its four counts. |
| Stats.ModelSummarySingleExample | src/lib/__tests__/stats.test.ts:116-125 | A single model gives one summary with its four counts and a total of 3800. |
| Stats.ModelSummariesExample | src/lib/__tests__/stats.test.ts:127-133 | Sonnet (8200) comes before opus (3800). |
| Stats.ComputeDailyTokens | src/lib/stats.ts:69-79 | The output is never longer than the input, is empty for an empty input, and every row's date starts with the month prefix. |
| Stats.DailyTokensAppend | src/lib/stats.ts:73-78 | The rows of a concatenation are the rows of each part, in order. |
| Stats.DailyTokensSingle | src/lib/stats.ts:74-77 | A day gives one row, with its date and the sum of its per-model counts, exactly when its date starts with the prefix; otherwise it gives none. |
| Stats.DailyTokensNoMatch | src/lib/stats.ts:73-74 | When no date is in the month, there are no rows. |
| Stats.DailyTokensSumToMonthTotal | src/lib/stats.ts:69-79 | The daily rows add up to the back end's month total for the same prefix. |
| Stats.DailyTokensExampleFebruary | src/lib/__tests__/stats.test.ts:143-148 | February 2026 gives rows for 02-20 (8000) and 02-21 (2000), in that order. |
| Stats.DailyTokensExampleJanuary | src/lib/__tests__/stats.test.ts:150-154 | January 2026 gives one row: 01-15 with 9000. |
| Stats.DailyTokensExampleNone | src/lib/__tests__/stats.test.ts:156-158 | December 2025 gives no rows. |
| Stats.ComputeMonthMessages | src/lib/stats.ts:81-88 | Messages of days in the month are summed, and every other day counts 0. Empty input gives 0. |
| Stats.ComputeMonthSessions | src/lib/stats.ts:90-97 | Sessions of days in the month are summed, and every other day counts 0. Empty input gives 0. |
| Stats.ComputeMonthToolCalls | src/lib/stats.ts:99-106 | Tool calls of days in the month are summed, and every other day counts 0. Empty input gives 0. |
| Stats.MonthMessagesExample | src/lib/__tests__/stats.test.ts:163-175 | February 30, January 50, no days 0. |
| Stats.MonthSessionsExample | src/lib/__tests__/stats.test.ts:177-185 | February 5. |
| Stats.MonthToolCallsExample | src/lib/__tests__/stats.test.ts:187-199 | February 20, January 30. |
| Format.FormatCostCents | src/lib/format.ts:12-15 | The dollar string of an amount in cents. Its contract is carried by `CostCentsRoundTrip`, which reads back exactly the cents it was made from and fixes the spelling (sign only for negative amounts, dollars without leading zeros), and by the examples below. |
| Format.TwoDigits | src/lib/format.ts:14 | The cents part is two digits that read back as the remainder below 100. |
| Format.CostCentsRoundTrip | src/lib/format.ts:12-15 | The dollar string reads back to exactly the cents it was made from. Its second character is "-" exactly when the amount is negative (so 0 is never "$-0.00"), and its dollar digits are `to_string` of their value, with no leading zeros (so never "$005.00"). |
| Format.ParseLayout | src/lib/format.ts:12-15 | Any string laid out as "$", an optional "-", one or more digits, ".", two digits reads back to the signed value of those digits, in cents. Its second character is '-' exactly when the sign is present, and the dollar digits sit between the sign and the '.'. |
| Format.CostCentsExamplesSmall | src/lib/__tests__/format.test.ts:35-40 | 0, 1 and 100 cents give "$0.00", "$0.01" and "$1.00". |
| Format.CostCentsExampleDollars | src/lib/__tests__/format.test.ts:38 | 12345 cents gives "$123.45". |
| Format.CostCentsExampleNegative | src/lib/__tests__/format.test.ts:42-44 | -500 cents gives "$-5.00". |
| Format.FormatModelName | src/lib/format.ts:21-28 | Remove the first "claude-", split on '-', upper-case each part's first letter, and join with spaces. Its contract is carried by `FormatModelNameWords`, `NamePartsFirstOccurrence` and `FormatModelNameFromParts`. |
| Format.FormatModelNameWords | src/lib/format.ts:21-28 | For a name without spaces, the words of the result are the name's parts, one per part and in order. The parts are taken after removing the first "claude-" and splitting on '-'. Each word has its first letter upper-cased and the rest unchanged. |
| Format.FormatModelNameWithoutPrefix | src/lib/format.ts:23-27 | A name that does not contain "claude-" is only split, capitalised and joined. |
| Format.NamePartsFirstOccurrence | src/lib/format.ts:24 | Only the first occurrence of "claude-" is removed, wherever it is. |
| Format.FormatModelNameFromParts | src/lib/format.ts:23-27 | A name whose stripped form joins dash-free parts formats as those parts capitalised and joined by spaces. |
| Format.ModelNameExampleOpus | src/lib/__tests__/format.test.ts:56-57 | "claude-opus-4-6" gives "Opus 4 6". |
| Format.ModelNameExampleOther | src/lib/__tests__/format.test.ts:62-64 | "gpt-4" gives "Gpt 4". |
| Format.ModelNameExampleSingle | src/lib/__tests__/format.test.ts:66-68 | "claude-opus" gives "Opus". |
| Text.IndexOf | src/lib/format.ts:24 | The first index where the pattern occurs, or none when it does not occur. |
| Text.ReplaceFirst | src/lib/format.ts:24 | With no occurrence the string is unchanged. Otherwise exactly the first occurrence is replaced. |
| Text.Split | src/lib/format.ts:25 | There is at least one piece, and no piece contains the separator. |
| Text.JoinSplit | src/lib/format.ts:25-27 | Splitting on a separator and joining with it gives the string back. |
| Text.SplitJoin | src/lib/format.ts:25-27 | Joining separator-free pieces and splitting again gives the pieces back. |
| Text.Capitalize | src/lib/format.ts:26 | The first character is upper-cased, and the rest of the part is unchanged. |
| Decimal.NatToString | src-tauri/src/lib.rs:89 | `to_string` of a count: at least one digit, one digit exactly below 10, and a leading '0' only for zero. |
| Decimal.NatToStringRoundTrip | src-tauri/src/lib.rs:89 | `to_string` of a count is digits that read back as the count. |

## Left out

- The Tauri shell code is not modelled (src-tauri/src/lib.rs:137-242). This covers the tray icon, popover toggling, window focus, the command wrappers and `run()`. It is user-interface and framework glue.
  - `update_tray_from_stats` sets the tray title from `current_month_tokens` when the snapshot reads, and skips otherwise. In `Polling` it is one counted refresh.
- `stats_cache_path` and `read_stats` are not modelled: they need the home directory, the file system and `serde_json`. The records are datatype shapes only.
- `Polling.Watch`: the thread, the channel, the `notify` watcher and the `.expect` panics at setup are not modelled.
  - The unbounded `loop` becomes a finite sequence of receive outcomes; running out of outcomes stands for the loop still waiting.
  - The 60-second timeout is the `Timeout` outcome.
  - A path is its normal components: `file_name` returns the last component, unless there is none or it is `..`. Root and `.` components are not represented.
  - Event sub-kinds are dropped, and the watch error's message is not modelled.
- TokenFormat.FormatTokens: the source formats a binary double with one decimal, and this model rounds the exact quotient half up. They can differ on halfway values:
  - Rust's `{:.1}` rounds an exactly representable tie to even (1250 gives "1.2K"); JavaScript's `toFixed(1)` and this model give "1.3K".
  - Near-ties that are not exactly representable follow the double: 1150 is stored just below 1.15, so both sources give "1.1K", while the model gives "1.2K".
  - `FormatTokensNearest` pins the model's round-half-up: its lower bound is strict. In both cases above the sources round down, which lands exactly on that excluded bound, so the lemma does not describe the sources' output on such ties.
  - Beyond 10^21, `toFixed` switches to exponent notation.
- Format.FormatCostCents takes integer cents. Fractional cents, and amounts large enough that `cents / 100` loses precision as a double, are not modelled. `ModelUsage.costUsd` is a `real`, and no operation reads it.
- The clock is not read: `SystemTime::now()` is the `now` parameter.
  - A clock set before 1970 makes `duration_since(UNIX_EPOCH).unwrap()` panic (src-tauri/src/lib.rs:94-96). That panic happens inside `update_tray_from_stats` on the watcher thread, so it ends the polling loop for good. `now: nat` cannot express that reading, so neither the panic nor the end of the loop is modelled.
  - The front end's `getCurrentMonthPrefix` is not modelled: it is based on `Date` and local time, whereas the back end uses UTC days.
  - The locale-dependent `formatNumber` is not modelled either.
- The `invoke` wrappers of the front end's API module are not modelled. They are calls into the back end.
- Counters are unbounded `nat`. These are not modelled:
  - the overflow of the `u64` `sum()` in `current_month_tokens`;
  - the 2^53 precision limit of JavaScript numbers;
  - the `u32` range of `version`.
  The `u64` clock reading is required to be below 2^64, and the `i32` cast of the day count is modelled.
- Text.Capitalize upper-cases ASCII letters only. JavaScript's `toUpperCase` is full Unicode case mapping, and characters outside `a`–`z` are left unchanged in this model.
- Stats.SortByTotalDesc: the contract states sortedness and permutation only. The order of models with equal totals is stable by construction (each new element goes after all earlier elements with an equal or larger total), matching the stable `Array.prototype.sort`, but no lemma states it.
