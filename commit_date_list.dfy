/** `createCommitDateList` as the source writes it: a `while` loop over
    days that either skips a weekend day or runs the inner `for` loop, then
    advances `currentDate` by a random number of days. The list is built by
    appending, as `commitDateList.push` does. */
module CommitDateList {
  import opened Dates
  import opened Random
  import opened Generator
  import opened Properties

  /** The inner `for` loop on day `currentDate`: while the counter is below
      a fresh draw of the commit count, append a commit date with random
      hour, minute and second. Draws start at `rng(pos)`; `next` is the
      first unused draw. */
  method CommitsForDay(cfg: Config, rng: nat -> int, currentDate: DateTime, pos: nat)
    returns (dates: seq<DateTime>, next: nat)
    ensures dates == Burst(cfg, rng, currentDate, pos, 0)
    ensures next == pos + BurstDraws(|dates|)
  {
    dates := [];
    var i: nat := 0;
    var test := pos;
    while i < GetRandomIntInclusive(cfg.minCommits, cfg.maxCommits, rng(test))
      invariant test == pos + 4 * i
      invariant |dates| == i
      invariant StopCount(cfg, rng, test, i) == StopCount(cfg, rng, pos, 0)
      invariant forall k :: 0 <= k < i ==> dates[k] == CommitDate(currentDate, rng, pos + 4 * k + 1)
      decreases DrawCeiling(cfg.minCommits, cfg.maxCommits) - i
    {
      var dateWithHours := SetHours(currentDate, GetRandomIntInclusive(9, 16, rng(test + 1)));
      var dateWithHoursAndMinutes := SetMinutes(dateWithHours, GetRandomIntInclusive(0, 59, rng(test + 2)));
      var commitDate := SetSeconds(dateWithHoursAndMinutes, GetRandomIntInclusive(0, 59, rng(test + 3)));
      dates := dates + [commitDate];
      i := i + 1;
      test := test + 4;
    }
    next := test + 1;
    BurstFacts(cfg, rng, currentDate, pos, 0);
    BurstAt(cfg, rng, currentDate, pos, 0);
  }

  /** One pass of the `while` loop body at `currentDate`: on a weekend day
      with `workdaysOnly` only advance; otherwise run the inner loop, then
      advance by `getRandomIntInclusive(0, range)` days. */
  method VisitDay(cfg: Config, rng: nat -> int, currentDate: DateTime, pos: nat)
    returns (dates: seq<DateTime>, nextDate: DateTime, next: nat)
    ensures StepResult(dates, nextDate, next) == Step(cfg, rng, currentDate, pos)
  {
    if cfg.workdaysOnly && IsWeekend(currentDate) {
      dates := [];
      nextDate := AddDays(currentDate, GetRandomIntInclusive(0, cfg.range, rng(pos)));
      next := pos + 1;
      return;
    }
    dates, next := CommitsForDay(cfg, rng, currentDate, pos);
    nextDate := AddDays(currentDate, GetRandomIntInclusive(0, cfg.range, rng(next)));
    next := next + 1;
  }

  /** Build the commit-date list for `cfg`, drawing `rng(0)`, `rng(1)`, ...
      in the source's order, for at most `fuel` passes of the outer loop. */
  method CreateCommitDateList(cfg: Config, rng: nat -> int, fuel: nat)
    returns (commitDateList: seq<DateTime>, finished: bool)
    ensures Outcome(commitDateList, finished) == Generate(cfg, rng, cfg.startDate, 0, fuel)
    ensures ScheduleSound(cfg, commitDateList, finished)
  {
    ghost var whole := Generate(cfg, rng, cfg.startDate, 0, fuel);
    commitDateList := [];
    var currentDate := cfg.startDate;
    var pos: nat := 0;
    var budget := fuel;
    while Le(currentDate, cfg.endDate) && budget > 0
      invariant commitDateList + Generate(cfg, rng, currentDate, pos, budget).dates == whole.dates
      invariant Generate(cfg, rng, currentDate, pos, budget).finished == whole.finished
      decreases budget
    {
      var dates, nextDate, next := VisitDay(cfg, rng, currentDate, pos);
      GenerateAdvance(cfg, rng, currentDate, pos, budget, commitDateList, whole, dates, nextDate, next);
      commitDateList := commitDateList + dates;
      currentDate, pos, budget := nextDate, next, budget - 1;
    }
    finished := !Le(currentDate, cfg.endDate);
    GenerateStops(cfg, rng, currentDate, pos, budget);
    assert commitDateList + [] == commitDateList;
    ScheduleProperties(cfg, rng, fuel);
  }
}
