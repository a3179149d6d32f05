# Payroll engine model

This project models the pay-computation engine of a small payroll program.
A week record such as `MO10:00-12:00,TU10:00-12:00,TH01:00-03:00,SA14:00-18:00,SU20:00-21:00`
lists worked intervals per day code. The engine (`Payroll_I` in `task.py`)
turns such a record into an integer amount in four stages:

1. `update_shifts` normalises the shift windows. Each `"HH:MM"` bound keeps
   only its hour, and an end hour of 0 becomes 24. This is `Config.NormalizeShifts`,
   implemented by `Service.PayrollI.UpdateShifts`.
2. `determine_day_load` reads exactly two `dd:dd` times from a day's work
   text. If the start hour is strictly greater than the end hour, the end
   becomes 24. Each shift then gets the half-open overlap
   `max(0, min(end, wEnd) - max(start, wStart))`. This is
   `Allocation.LoadForDay`, implemented by `Service.PayrollI.DetermineDayLoad`.
3. `determine_shift_load` splits the record on `,`. It takes the first run of
   ASCII letters of each token as the day code and stores the day's load
   under that code. A repeated code replaces the earlier load. This is
   `Workload.ShiftLoadOf`, implemented by
   `Service.PayrollI.DetermineShiftLoad`.
4. `determine_amounts` prices every day that is both worked and in the rate
   table. A missing rate or hour counts 0. `calcaulate_payment` sums the
   amounts. This is `Pricing.DailyAmounts` and `Pricing.Payment`, implemented
   by `Service.PayrollI.DetermineAmounts` and
   `Service.PayrollI.CalculatePayment`.

`Payroll.instance` keeps the first engine created and returns it on every
later call (`Service.Payroll.Instance`). The Python class keeps that engine in
the class attribute `Payroll._instance`; the model keeps it in the field
`instance` of a `Service.Payroll` holder object, which stands for that class
attribute.

Modules, one file each:

- `Config` (config.dfy): the shift and rate constants, the error kinds, and
  the parsing of shift bounds.
- `Scan` (scan.dfy): `str.split`, the first match of `[a-zA-Z]+` and the
  matches of `\d{2}:\d{2}`, written as scans over characters.
- `Allocation` (allocation.dfy): one interval split across the shifts.
- `Workload` (workload.dfy): the week record folded into per-day loads.
- `Pricing` (pricing.dfy): rates times hours, and order-free sums.
- `Service` (service.dfy): the `PayrollI` and `Payroll` classes. Each
  method loops as the Python code does and is proved against the
  functions above.
- `SampleWeek` (sample.dfy): the documented example week. It pays 215.

Conventions used throughout:

- Python dictionaries are Dafny maps.
- A `for` loop over a dictionary or a set visits its keys in an order the
  model leaves open: each step picks any key not yet visited. Every result
  is proved for every such order.
- Exceptions the code lets escape become the `Err` case of `Config.Result`
  in the functions and in the methods that return a result:
  - `BadShift` when a shift's bounds do not parse while an engine is
    created (`Service.NewPayrollI`, `Service.Payroll.Instance`);
  - `NoDayCode` for the `IndexError` on a token with no letter;
  - `TimeCount(n)` for the unpack error when a token has `n != 2` times.
- `Service.PayrollI.UpdateShifts` returns a `bool` instead: `false` stands
  for the exception raised by `update_shifts` (task.py:118-120), and the
  windows are then left unchanged, as they are in Python because
  `self.shifts` is assigned only after the loop (task.py:124).

What the code does, as modelled:

- **Contiguous windows.** The default windows start at "00:01", "09:01" and
  "18:01" (task.py:8-10). Only the hour before the colon is kept
  (task.py:119-120), so they become night [0,9), day [9,18) and evening
  [18,24), with no gap between them.
- **Strict wrap test.** An interval wraps only when its start hour is
  strictly greater than its end hour (task.py:143). `00:00-00:00`, or any
  start equal to its end, is empty and every shift gets 0.
- **Evening, not night.** With those windows, `23:00-02:00` credits one hour
  to the evening shift and nothing to the night shift (task.py:143-148).
- **Overwrite on repeat.** A repeated day code keeps only its last load
  (task.py:172). Loads for the same day are not summed.
- **No validation.** Windows are never checked for end > start
  (task.py:116-124).
- **Hours up to 99.** A time is any `dd:dd` (task.py:138), so hours up to 99
  are read as they are. Under the default windows the hours of an interval
  outside [0,24) fall in no shift and pay nothing.
- **Rate argument ignored.** The constructor ignores its `hourly_prices`
  argument and always uses `HOURLY_PRICES` (task.py:102).

## Model

| member | source | states |
|---|---|---|
| Config.BeforeColon | task.py:119-120 | the result is the longest colon-free prefix of the bound: it is a prefix, has no colon, and is followed by a colon when shorter than the input |
| Config.ParseInt | task.py:119-120 | `int` reads a non-empty digit string as its decimal value, a `-` or `+` sign followed by digits as the signed value, and refuses everything else |
| Config.Decimal | task.py:119-120 | the decimal spelling of a natural number is a non-empty digit string |
| Config.DecimalValue | task.py:119-120 | reading back the decimal spelling of n gives n |
| Config.ParseIntDecimal | task.py:119-120 | `int(str(n)) == n` for every natural n |
| Config.ParseHour | task.py:119-120 | a bound without a colon is read whole as an integer, and a bound that starts with a colon has no hour |
| Config.ColonFreeWhole | task.py:119-120 | splitting a colon-free bound on ":" keeps it whole |
| Config.ParseWindow | task.py:118-123 | a window is read exactly when there are two bounds and both hours parse; its start is the first bound's hour, its end the second bound's hour with 0 read as 24, so the end is never 0 |
| Config.NormalizeShifts | task.py:116-124 | normalisation succeeds exactly when every shift's bounds parse; it then keeps every shift name, each name maps to the window its bounds parse to, and no window ends at 0 |
| Config.BeforeColonOfBound | task.py:119-120 | for an "H:M" bound whose hour part has no colon, the text before the first colon is the hour part |
| Config.HourDropsMinutes | task.py:119-120 | the hour read from "H:M" is the integer value of H, whatever the minutes are |
| Config.ShiftNormalisation | task.py:118-123 | a shift written "H1:M1" to "H2:M2" becomes [H1, H2], with an end of 0 read as 24, for all minutes |
| Config.TwoDigits | task.py:119 | the value of a two-digit hour is ten times its first digit plus its second |
| Config.BoundHour | task.py:119-120 | the hour of any five-character "dd:.." bound is the value of its two leading digits |
| Config.NightWindow | task.py:8 | the night shift's bounds "00:01" to "09:00" parse as [0, 9) |
| Config.DayWindow | task.py:9 | the day shift's bounds "09:01" to "18:00" parse as [9, 18) |
| Config.EveningWindow | task.py:10 | the evening shift's bounds "18:01" to "00:00" parse as [18, 24) |
| Config.DefaultWindowsParse | task.py:7-11 | the default shifts and the default windows have the same names, and each shift parses to its window |
| Config.DefaultShiftsNormalised | task.py:7-11 | normalising the default shifts gives night [0,9), day [9,18), evening [18,24) |
| Scan.Split | task.py:168 | splitting yields at least one piece and no piece contains the separator |
| Scan.JoinSplit | task.py:168 | splitting loses nothing: joining the pieces with the separator gives the input back |
| Scan.SplitAfterSeparatorFree | task.py:168 | a separator-free prefix attaches to the first piece of what follows it |
| Scan.SplitJoin | task.py:168 | separator-free pieces are split back out of their join, so a record's tokens are exactly its comma-separated parts |
| Scan.LetterPrefix | task.py:167-169 | the result is a prefix made only of letters and is followed by a non-letter or the end: it is the maximal run |
| Scan.FirstLetterAt | task.py:169 | no position exactly when the text has no letter; otherwise the position holds a letter and nothing before it is a letter |
| Scan.FirstLetterRun | task.py:167-169 | no day code (the `IndexError`) exactly when the token has no letter; otherwise the code is a non-empty run of letters that starts at the first letter of the token and is followed by a non-letter or the end: the first maximal match |
| Scan.TimeMatches | task.py:138-139 | every match has the form dd:dd, and there are at most a fifth as many matches as characters; that the matches do not overlap and which text each one is are proved by Scan.FirstTimeMatch and Scan.NoTimeMatches |
| Scan.TimeAtTail | task.py:138-139 | a time sits at position q after the first character exactly when it sits at q + 1 in the whole text |
| Scan.NoTimeMatches | task.py:138-139 | there are no matches exactly when no position of the text holds a dd:dd time |
| Scan.FirstTimeMatch | task.py:138-139 | the first match is the leftmost dd:dd in the text, and the search resumes right after it |
| Scan.HourOf | task.py:140-141 | the hour of a dd:dd match is ten times its first digit plus its second, below 100, and equals the integer before its colon |
| Scan.TimeMatchesOfTime | task.py:138-139 | a leading dd:dd time is the first match and the search resumes after it |
| Scan.TimeMatchesOfInterval | task.py:138-139 | "t1-t2" with two times matches exactly [t1, t2] |
| Allocation.Overlap | task.py:147-148 | the hours credited to a shift are never negative and exceed neither the interval's nor the window's length |
| Allocation.OverlapCountsHours | task.py:147-148 | the overlap formula equals a count of the whole hours lying in both the interval and the window |
| Allocation.ContiguousWindowsCountOnce | task.py:145-148 | three windows [0,a), [a,b), [b,24) count each hour of an interval within the day exactly once |
| Allocation.ParseInterval | task.py:138-141 | reading succeeds exactly when there are two time matches, otherwise the error carries their count; the hours are below 100 and are the integers before the colons of the two matches |
| Allocation.EffectiveEnd | task.py:143-144 | the end is kept whenever the start is not after it, and is otherwise either kept or 24; for a start within [0,24] the effective end is never before the start, so a wrapping interval ends at 24; for an end within [0,24] it never exceeds 24 |
| Allocation.DayLoad | task.py:142-149 | the load has an entry for every configured shift and no other, and every entry is at least 0 |
| Allocation.LoadForDay | task.py:128-149 | a day's load exists exactly when its text holds two times, otherwise the error carries the count; a load names every configured shift |
| Allocation.MidnightTruncation | task.py:143-148 | for a wrapping interval each shift gets the hours it shares with [start, 24) and never more than 24 − start |
| Allocation.ZeroLengthInterval | task.py:143-148 | an interval whose start equals its end gives 0 to every shift |
| Allocation.HoursConserved | task.py:145-148 | under the default windows the three shift loads add up to end − start, or to 24 − start when the interval wraps |
| Allocation.ParseTwoTimes | task.py:138-141 | "t1-t2" with two dd:dd times reads as the hours of t1 and t2 |
| Allocation.ParseIntervalExample | task.py:138-141 | "10:00-12:00" reads as hours 10 to 12 |
| Allocation.SingleTimeFails | task.py:139 | a lone "10:00" is the unpack failure with one match, not a partial result |
| Allocation.DefaultDayLoad | task.py:145-148 | under the default windows each shift gets the overlap of the interval with its own window |
| Allocation.ParseOvernight | task.py:138-141 | "23:00-02:00" reads as hours 23 to 2, a start after the end |
| Allocation.OvernightExample | task.py:143-148 | "23:00-02:00" credits one evening hour and no night or day hour |
| Workload.TokenLoadMeaning | task.py:169-171 | a token with no letter fails with no day code; otherwise it succeeds exactly when its work part has two times, and a success carries the day code and an entry per shift |
| Workload.TokenLoad | task.py:169-171 | a token fails with no day code exactly when it has no letter; a success carries the token's first letter run as the day and a load for exactly the configured shifts |
| Workload.WeekLoad | task.py:166-173 | the week's tokens give a load exactly when every token succeeds |
| Workload.ShiftLoadOf | task.py:166-173 | a week record gives a load exactly when every comma-separated token of it succeeds |
| Workload.Collect | task.py:166-173 | the week load exists exactly when every token succeeds |
| Workload.FirstFailureReported | task.py:168-171 | the week fails with the error of its first failing token |
| Workload.CollectDays | task.py:168-172 | the stored days are exactly the day codes of the tokens |
| Workload.LastOccurrenceWins | task.py:172 | a day is stored with the load of its last token |
| Workload.CollectKeepsShifts | task.py:171-172 | when all token loads cover the same shifts, every stored day load covers them |
| Workload.WeekLoadShifts | task.py:166-173 | every stored day load has an entry for every configured shift |
| Workload.LetterPrefixOfCode | task.py:169 | a code of letters followed by a non-letter is the maximal letter run |
| Workload.RecordToken | task.py:168-171 | a token "DD" + "HH:MM-HH:MM" yields day code DD and the load of hours HH to HH |
| Workload.EmptyRecordFails | task.py:168-169 | an empty record fails with no day code |
| Workload.CollectStep | task.py:172 | one more successful token stores its load under its day, replacing any earlier one |
| Workload.RepeatedDayTokens | task.py:168 | the repeated-day record splits into its two tokens |
| Workload.FirstMondayToken | task.py:168-171 | "MO10:00-12:00" yields Monday with the load of hours 10 to 12 |
| Workload.SecondMondayToken | task.py:168-171 | "MO01:00-03:00" yields Monday with the load of hours 1 to 3 |
| Workload.RepeatedDayEntries | task.py:168-171 | the repeated-day record's tokens both succeed, as two Monday loads |
| Workload.EntriesOfTwo | task.py:168-171 | a two-token record's outcomes are those of its tokens, in order |
| Workload.CollectSameDayTwice | task.py:172 | two loads for the same day keep only the second |
| Workload.RepeatedDayExample | task.py:166-172 | "MO10:00-12:00,MO01:00-03:00" stores only Monday's second load: 2 night hours |
| Pricing.MapSumRemove | task.py:217 | the total of a map's values is the same whichever key is taken first: it does not depend on iteration order |
| Pricing.Get | task.py:197 | `dict.get(k, 0)`: the stored value when the key is present, 0 otherwise |
| Pricing.MapSumScale | task.py:197 | multiplying every value by c multiplies the total by c |
| Pricing.ShiftPays | task.py:196-197 | one pay entry per configured shift, no more and no fewer |
| Pricing.DailyAmounts | task.py:189-198 | amounts exist exactly for the days both worked and in the rate table |
| Pricing.DayAmountNoShifts | task.py:195-197 | with no configured shift a day earns 0 |
| Pricing.DayAmountPeel | task.py:196-197 | a day's amount is any one shift's rate times hours plus the amount of the other shifts, so the shift order does not matter |
| Pricing.WeekAmountPeel | task.py:189-198 | a week's total is any one priced day's amount plus the total of the other days, so the day order does not matter |
| Pricing.Payment | task.py:215-218 | a week record gets a total exactly when every token of it succeeds; otherwise the result is the record's own failure |
| Pricing.SumAmounts | task.py:217 | the sum of an empty list is 0, and a list of amounts that are never negative sums to at least 0; with Pricing.SumAmountsAppend and Pricing.SumAmountsInAnyOrder it is the sum of the list's amounts |
| Pricing.SumAmountsAppend | task.py:217 | the sum of a list split in two is the sum of the two parts' sums |
| Pricing.SumAmountsInAnyOrder | task.py:217 | a list pairing each priced day once with its amount sums to the week total, whatever the order of the list |
| Pricing.MissingRateOrHoursPayNothing | task.py:197 | a shift with no rate or no hours that day pays 0 |
| Pricing.UnknownDayIgnored | task.py:189 | a day with no rate row gets no amount, and removing it from the workload leaves the week total unchanged |
| Pricing.DayAmountLinear | task.py:196-197 | scaling every shift's hours by c scales the day's amount by c |
| Pricing.MapSumOfThree | task.py:196-197 | a map with three distinct keys sums to its three values |
| Pricing.DefaultDayAmount | task.py:196-197 | under the default windows a day earns each shift's rate times the interval's overlap with that shift |
| Service.EntriesGrow | task.py:168 | the outcomes of the first i+1 tokens are those of the first i followed by token i's |
| Service.FailureAfterSuccesses | task.py:168-171 | a failing token after successful ones is the failure of the whole week |
| Service.PayrollI.constructor | task.py:100-103 | a new engine has the windows its shift definitions normalise to and the rate table HOURLY_PRICES, whatever rate argument it was given |
| Service.PayrollI.UpdateShifts | task.py:106-125 | reports success exactly when every shift parses; then the windows are replaced by the normalised ones, otherwise they are left as they were |
| Service.PayrollI.DetermineDayLoad | task.py:128-149 | the result is the day's load as specified by Allocation.LoadForDay for the engine's windows |
| Service.PayrollI.DetermineShiftLoad | task.py:151-173 | the result is the week's per-day loads as specified by Workload.ShiftLoadOf for the engine's windows |
| Service.PayrollI.DetermineAmounts | task.py:175-199 | the list pairs every day both worked and priced exactly once with its amount, and holds nothing else |
| Service.PayrollI.DayPayment | task.py:193-197 | the day's payment is the sum over the configured shifts of rate times hours, missing entries counting 0 |
| Service.PayrollI.CalculatePayment | task.py:202-218 | the result is the week's total pay, or the failure of the record |
| Service.NewPayrollI | task.py:100-103 | creating an engine fails with BadShift exactly when the shift definitions do not parse; otherwise the new engine holds the normalised windows and HOURLY_PRICES |
| Service.Payroll.constructor | task.py:82 | the holder starts with no engine |
| Service.Payroll.Instance | task.py:87-93 | once an engine is held, every call returns that same engine and changes nothing; the first call creates and keeps a fresh engine, or fails and keeps none |
| SampleWeek.SampleTokens | task.py:158 | the documented record splits into its five day tokens |
| SampleWeek.MondayToken | task.py:158 | "MO10:00-12:00" yields Monday with hours 10 to 12 |
| SampleWeek.TuesdayToken | task.py:158 | "TU10:00-12:00" yields Tuesday with hours 10 to 12 |
| SampleWeek.ThursdayToken | task.py:158 | "TH01:00-03:00" yields Thursday with hours 1 to 3 |
| SampleWeek.SaturdayToken | task.py:158 | "SA14:00-18:00" yields Saturday with hours 14 to 18 |
| SampleWeek.SundayToken | task.py:158 | "SU20:00-21:00" yields Sunday with hours 20 to 21 |
| SampleWeek.EntriesOfFive | task.py:168-171 | a five-token record's outcomes are those of its tokens, in order |
| SampleWeek.SampleEntries | task.py:158 | all five tokens of the documented record succeed, in order |
| SampleWeek.CollectFive | task.py:166-172 | five successful tokens are stored one after the other |
| SampleWeek.SampleShiftLoad | task.py:158 | the documented record's load is one interval load per day |
| SampleWeek.MondayAmount | task.py:14 | two weekday day-shift hours pay 30 |
| SampleWeek.ThursdayAmount | task.py:17 | two weekday night-shift hours pay 50 |
| SampleWeek.SaturdayAmount | task.py:19 | four weekend day-shift hours pay 80 |
| SampleWeek.SundayAmount | task.py:20 | one weekend evening-shift hour pays 25 |
| SampleWeek.SampleDays | task.py:189 | every documented day is priced |
| SampleWeek.SampleDailyAmounts | task.py:189-198 | the documented days earn 30, 30, 50, 80 and 25 |
| SampleWeek.MapSumOfFive | task.py:217 | a map with five distinct keys sums to its five values |
| SampleWeek.SampleWeekAmount | task.py:217 | the documented week's amounts total 215 |
| SampleWeek.SamplePayment | task.py:210 | the documented record pays 215 under the default shifts and rates |

## Left out

- `FileReader`, `create_parser` and `main` (task.py:27-73, task.py:226-249) are file, command-line and console I/O. They are not part of this model.
- Python's `int` is modelled as an optional sign followed by ASCII digits. Surrounding whitespace, underscores between digits and non-ASCII digits, all of which `int` accepts, are not modelled.
- `\d` and `[a-zA-Z]` are modelled over ASCII. Python's `\d` also matches other Unicode decimal digits, which the model leaves out.
- Config.ParseWindow: a shift's bounds are a list of strings. Other Python values that unpack into two items, such as a two-character string, are not modelled.
- Exception types and messages are reduced to the three error kinds of `Config.Error`.
- The order in which Python visits dictionary keys is left open. The model proves each result for every order rather than fixing CPython's insertion order.
- Service.PayrollI.DetermineAmounts: the inner loop over shifts is the separate method `Service.PayrollI.DayPayment`. The source writes it inline; the arithmetic is the same.
- Service.PayrollI.constructor: it requires shift definitions that parse. A failing construction, which raises in the source, is `Service.NewPayrollI` returning `Err(BadShift)`.
- `Payroll()` raising `RuntimeError` (task.py:84-85) is not modelled. The model's `Service.Payroll` has an ordinary constructor, so any number of holders can exist; each keeps the engine of its own first successful `Instance` call.
- Sharing the engine between threads or processes is not modelled. The code has no concurrency.
