# Commit-date schedule generator

A model of the part of `node-github` that decides when fake commits are
dated: `createCommitDateList` and its helper `getRandomIntInclusive`. The
generator walks from `startDate` while `currentDate <= endDate`. A weekend
day with `workdaysOnly` set is skipped. On any other day the inner `for`
loop appends commit dates at random times between 9:00:00 and 16:59:59.
Each pass then advances `currentDate` by a random number of days in
`[0, range]`.

Files:

- `dates.dfy` (module `Dates`): local date-times and the date-fns
  operations used (`addDays`, `isWeekend`, `setHours`, `setMinutes`,
  `setSeconds`). Day 0 is 1970-01-01, a Thursday.
- `random.dfy` (module `Random`): `getRandomIntInclusive` over an explicit
  raw random integer.
- `generator.dfy` (module `Generator`): the specification functions. They
  describe one test of the inner loop (`StopCount`, `Burst`), one pass of
  the outer loop (`Step`) and the whole loop (`Generate` and `Visit`),
  together with their basic facts.
- `properties.dfy` (module `Properties`): what every generated schedule
  satisfies.
- `commit_date_list.dfy` (module `CommitDateList`): `createCommitDateList`
  as the source writes it. It has a `while` loop and an inner loop that
  appends, and it is proved equal to `Generate`.

Randomness is a stream `rng: nat -> int`. The k-th call of
`getRandomIntInclusive`, in source order, uses `rng(k)`. The condition
`i < getRandomIntInclusive(...commitsPerDay)` draws again on every test, as
the source does. Each visit of an eligible day therefore uses four draws
per commit date plus one for the test that ends the loop, and then one more
for the day advance; a skipped weekend visit uses exactly one draw, for the
advance.

The source loop need not end: with `range <= 0` the day never moves forward. The
model gives the outer loop a budget of `fuel` passes and reports whether the
loop ended on its own condition (`finished`).

With `startDate = endDate = 2023-01-02`, `commitsPerDay = "2,2"` and
`range = 0`, every advance is 0 days, so the same day is visited again and
again and the loop never ends. `Properties.RangeZeroRepeatsDay` shows that
`fuel` passes then give `2 * fuel` dates, all on the start day, and
`Properties.NoForwardStepNeverFinishes` shows the loop never ends for any
`range <= 0` (a negative `range` draws advances in `[range + 1, 0]`).

The commit-count bound holds per visit, not per calendar day. For any
`range >= 1` an advance of 0 days visits the same day again, and that day
collects another visit's dates (`Properties.PerDayCanExceedMax`). Neither
order of `commitsPerDay` is validated, following the code:
`Properties.VisitCount` states what an inverted pair yields.

## Model

| member | source | states |
|---|---|---|
| Random.GetRandomIntInclusive | src/index.js:63-67 | For `min <= max` the draw lies in `[min, max]`. For `max < min` it lies in `(max, min]`, which is what `floor(random * (max - min + 1)) + min` gives when the width is not positive. |
| Random.DrawCovers | src/index.js:63-67 | Every value between the draw's floor and ceiling is produced by some raw randomness, so the model rules out none of the source's draws. |
| Dates.AddDaysMoves | src/index.js:85 | `addDays(t, n)` with `n >= 0` never lands before `t`, with `n <= 0` never after it, and with `n > 0` strictly after it. |
| Dates.DayOfWeek | src/index.js:74 | The weekday is in 0..6 (0 = Sunday), and day 0, 1970-01-01, is a Thursday. |
| Dates.WeekdayShift | src/index.js:74 | Shifting a day number by `n` shifts its weekday by `n` modulo 7; with `DayOfWeek`'s anchor (day 0 is a Thursday) this fixes the weekday of every day. |
| Generator.CommitDate | src/index.js:79-81 | A commit date keeps the visited day and its milliseconds. Its hour is in 9..16 and its minute and second are in 0..59. |
| Generator.StopCount | src/index.js:78 | The inner loop's exit counter is never below the counter it was tested from. |
| Generator.BurstFacts | src/index.js:78-84 | The inner loop appends one date per counter step, so exactly `StopCount` dates. All of them are on the current day at working hours. |
| Generator.BurstAt | src/index.js:78-84 | The k-th appended date takes its hour, minute and second from the three draws after the k-th test of the loop condition. |
| Generator.StepFacts | src/index.js:74-85 | One pass uses at least one draw. It moves `currentDate` forward by between 0 and `range` days (never forward when `range <= 0`) and keeps the time of day. It emits nothing on a skipped weekend day, and otherwise only dates on the current day at working hours. |
| Properties.StopCountBounds | src/index.js:78 | The exit counter is at least the draws' floor. If the loop ran at all, it is at most their ceiling. |
| Properties.VisitCount | src/index.js:78-84 | An eligible day's visit appends a count between `max(0, lo)` and `max(0, hi)`, where `[lo, hi]` is the set of values a `commitsPerDay` draw can take, although the count is re-drawn on each test. When `0 <= commitsPerDay[0] <= commitsPerDay[1]` that is between `commitsPerDay[0]` and `commitsPerDay[1]` dates; an inverted pair with `commitsPerDay[1] >= 0` gives a count in `(commitsPerDay[1], commitsPerDay[0]]`. The count is never negative. |
| Properties.GenerateTimes | src/index.js:79-81 | Every generated date has hour 9..16, minute 0..59 and second 0..59. |
| Properties.GenerateUntilEnd | src/index.js:73-86 | No generated date falls on a day after `endDate`'s day. |
| Properties.GenerateFrom | src/index.js:73-86 | With `range >= 0`, no generated date falls before the starting day. |
| Properties.GenerateWorkdays | src/index.js:74-77 | With `workdaysOnly`, no generated date is on a Saturday or Sunday. |
| Properties.GenerateSorted | src/index.js:73-86 | With `range >= 0`, the days of the generated list never decrease. |
| Properties.NoForwardStepNeverFinishes | src/index.js:73-86 | With `range <= 0` and `startDate <= endDate`, no advance moves forward, so the loop never ends on its own, whatever the budget. |
| Properties.RangeZeroRepeatsDay | src/index.js:73-86 | With `range = 0`, no weekday filter and `commitsPerDay = [c, c]`, `fuel` passes give exactly `fuel * c` dates, all on the start day. |
| Properties.PerDayCanExceedMax | src/index.js:78-85 | With `range = 1`, `commitsPerDay = (1, 1)` and all raw draws 0, two passes put two dates on the same day: the count bound is per visit, not per day. |
| Properties.WeekendSpanEmpty | src/index.js:73-86 | With `workdaysOnly` set and `range >= 0`, if every day from `currentDate`'s to `endDate`'s is a weekend day, nothing is generated. |
| Properties.SaturdaySundayEmpty | src/index.js:73-86 | With `workdaysOnly` and `range = 1`, Saturday 2023-01-07 to Sunday 2023-01-08 yields an empty list for every draw sequence. |
| Properties.ScheduleProperties | src/index.js:69-89 | Every schedule built from `startDate` meets all of the following: it is empty and finished when `startDate > endDate`; its times are working hours; no day is after `endDate`'s; with `range >= 0` no day is before `startDate`'s and the days never decrease; there are no weekend dates under `workdaysOnly`; and with `range <= 0` the loop does not end. |
| CommitDateList.CommitsForDay | src/index.js:78-84 | The inner `for` loop, drawing the count again on every test, appends exactly the dates `Burst` describes and uses `4n + 1` draws for `n` dates. |
| CommitDateList.VisitDay | src/index.js:74-85 | One pass of the `while` body, with the weekend skip and the `continue`, returns what `Step` describes. |
| CommitDateList.CreateCommitDateList | src/index.js:69-89 | The `while` loop, appending with `push`, builds exactly the list `Generate` describes, and that list satisfies `ScheduleSound`. |

## Left out

- The command-line glue at src/index.js:11-61 is not modelled. This covers the spinner, the `my-history` folder, the `git init`/`git add`/`git commit` shell calls and the success banner. It is I/O around an external program.
- Parsing the configuration at src/index.js:14-17 is not modelled: splitting `commitsPerDay` on `,`, date-fns `parse`, and `parseInt(range)` with its `NaN` case. The model takes `minCommits`, `maxCommits`, `range` and both dates as already-parsed integers and date-times.
- The default dates (a year ago and now) come from the clock and are left out. The caller passes `startDate` and `endDate`.
- `Math.random` and its floating-point product are left out. A draw is a raw integer clamped to the range the expression can produce, so the model covers which values occur but not their distribution.
- `Math.ceil(min)` and `Math.floor(max)` are the identity on the integer bounds the model uses. The string-to-number coercion of `commitsPerDay` values is not modelled.
- Time zones and daylight-saving transitions in date-fns are left out. A date-time is a local wall-clock reading, and `addDays` keeps it unchanged.
- CommitDateList.CreateCommitDateList: runs for at most `fuel` passes of the outer loop, because the source's loop need not terminate. It reports whether the loop ended on its own (`finished`). Behaviour beyond the budget is not modelled.
