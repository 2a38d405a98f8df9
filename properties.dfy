/** Properties of the schedule generator's specification: what every
    visit emits, where the emitted dates fall, and when the loop ends. */
module Properties {
  import opened Dates
  import opened Random
  import opened Generator

  function Max0(x: int): int {
    if x < 0 then 0 else x
  }

  /** The inner loop stops at the first counter value `n` that is not below
      a fresh draw, so `n` is at least the floor of the draws (the last draw
      is at most `n`) and, if the loop ran at all, at most their ceiling
      (every earlier draw exceeded its counter value). */
  lemma {:induction false} StopCountBounds(cfg: Config, rng: nat -> int, test: nat, i: nat)
    ensures DrawFloor(cfg.minCommits, cfg.maxCommits) <= StopCount(cfg, rng, test, i)
    ensures i < StopCount(cfg, rng, test, i) ==> StopCount(cfg, rng, test, i) <= DrawCeiling(cfg.minCommits, cfg.maxCommits)
    decreases DrawCeiling(cfg.minCommits, cfg.maxCommits) - i
  {
    if i < GetRandomIntInclusive(cfg.minCommits, cfg.maxCommits, rng(test)) {
      StopCountBounds(cfg, rng, test + 4, i + 1);
    }
  }

  /** Each visit of an eligible day appends between `commitsPerDay[0]` and
      `commitsPerDay[1]` dates, although the loop condition re-draws the
      count on every test. With the bounds in the wrong order the count
      lies in `(commitsPerDay[1], commitsPerDay[0]]`; it is never negative. */
  lemma VisitCount(cfg: Config, rng: nat -> int, cur: DateTime, pos: nat)
    requires !(cfg.workdaysOnly && IsWeekend(cur))
    ensures var n := |Step(cfg, rng, cur, pos).emitted|;
      Max0(DrawFloor(cfg.minCommits, cfg.maxCommits)) <= n <= Max0(DrawCeiling(cfg.minCommits, cfg.maxCommits))
    ensures var n := |Step(cfg, rng, cur, pos).emitted|;
      0 <= cfg.minCommits <= cfg.maxCommits ==> cfg.minCommits <= n <= cfg.maxCommits
    ensures var n := |Step(cfg, rng, cur, pos).emitted|;
      0 <= cfg.maxCommits < cfg.minCommits ==> cfg.maxCommits < n <= cfg.minCommits
  {
    StopCountBounds(cfg, rng, pos, 0);
    BurstFacts(cfg, rng, cur, pos, 0);
  }

  /** Every emitted date has hour 9..16, minute 0..59 and second 0..59. */
  lemma {:induction false} GenerateTimes(cfg: Config, rng: nat -> int, cur: DateTime, pos: nat, fuel: nat)
    ensures forall t :: t in Generate(cfg, rng, cur, pos, fuel).dates ==>
              9 <= t.hour <= 16 && 0 <= t.minute <= 59 && 0 <= t.second <= 59
    decreases fuel
  {
    if Le(cur, cfg.endDate) && fuel > 0 {
      var s := Step(cfg, rng, cur, pos);
      StepFacts(cfg, rng, cur, pos);
      GenerateTimes(cfg, rng, s.next, s.pos, fuel - 1);
    }
  }

  /** Every emitted date is on a day the loop visited while
      `currentDate <= endDate`, so never after `endDate`'s day. */
  lemma {:induction false} GenerateUntilEnd(cfg: Config, rng: nat -> int, cur: DateTime, pos: nat, fuel: nat)
    ensures forall t :: t in Generate(cfg, rng, cur, pos, fuel).dates ==> t.day <= cfg.endDate.day
    decreases fuel
  {
    if Le(cur, cfg.endDate) && fuel > 0 {
      LeDays(cur, cfg.endDate);
      var s := Step(cfg, rng, cur, pos);
      StepFacts(cfg, rng, cur, pos);
      GenerateUntilEnd(cfg, rng, s.next, s.pos, fuel - 1);
    }
  }

  /** With non-negative advances no emitted date is before the day the
      loop started from. */
  lemma {:induction false} GenerateFrom(cfg: Config, rng: nat -> int, cur: DateTime, pos: nat, fuel: nat)
    requires cfg.range >= 0
    ensures forall t :: t in Generate(cfg, rng, cur, pos, fuel).dates ==> cur.day <= t.day
    decreases fuel
  {
    if Le(cur, cfg.endDate) && fuel > 0 {
      var s := Step(cfg, rng, cur, pos);
      StepFacts(cfg, rng, cur, pos);
      GenerateFrom(cfg, rng, s.next, s.pos, fuel - 1);
    }
  }

  /** With `workdaysOnly` no emitted date falls on a Saturday or Sunday. */
  lemma {:induction false} GenerateWorkdays(cfg: Config, rng: nat -> int, cur: DateTime, pos: nat, fuel: nat)
    requires cfg.workdaysOnly
    ensures forall t :: t in Generate(cfg, rng, cur, pos, fuel).dates ==> !IsWeekend(t)
    decreases fuel
  {
    if Le(cur, cfg.endDate) && fuel > 0 {
      var s := Step(cfg, rng, cur, pos);
      StepFacts(cfg, rng, cur, pos);
      GenerateWorkdays(cfg, rng, s.next, s.pos, fuel - 1);
    }
  }

  /** With non-negative advances the days of the list never decrease. */
  lemma {:induction false} GenerateSorted(cfg: Config, rng: nat -> int, cur: DateTime, pos: nat, fuel: nat)
    requires cfg.range >= 0
    ensures DaysNondecreasing(Generate(cfg, rng, cur, pos, fuel).dates)
    decreases fuel
  {
    if Le(cur, cfg.endDate) && fuel > 0 {
      var s := Step(cfg, rng, cur, pos);
      StepFacts(cfg, rng, cur, pos);
      var rest := Generate(cfg, rng, s.next, s.pos, fuel - 1).dates;
      GenerateSorted(cfg, rng, s.next, s.pos, fuel - 1);
      GenerateFrom(cfg, rng, s.next, s.pos, fuel - 1);
      var all := s.emitted + rest;
      forall i, j | 0 <= i < j < |all| ensures all[i].day <= all[j].day {
        if j < |s.emitted| {
          assert all[i] in s.emitted && all[j] in s.emitted;
        } else if i < |s.emitted| {
          assert all[i] in s.emitted && all[j] == rest[j - |s.emitted|];
        } else {
          assert all[i] == rest[i - |s.emitted|] && all[j] == rest[j - |s.emitted|];
        }
      }
    }
  }

  /** With `range <= 0` no advance moves forward: `getRandomIntInclusive(0, 0)`
      is 0 and an inverted `(0, range)` draws from `[range + 1, 0]`. So while
      `currentDate <= endDate` holds at the start the loop never ends on its
      own: however large the budget, it runs out first. */
  lemma {:induction false} NoForwardStepNeverFinishes(cfg: Config, rng: nat -> int, cur: DateTime, pos: nat, fuel: nat)
    requires cfg.range <= 0 && Le(cur, cfg.endDate)
    ensures !Generate(cfg, rng, cur, pos, fuel).finished
    decreases fuel
  {
    if fuel > 0 {
      var s := Step(cfg, rng, cur, pos);
      StepFacts(cfg, rng, cur, pos);
      AddDaysMoves(cur, s.next.day - cur.day);
      assert s.next == AddDays(cur, s.next.day - cur.day);
      LeTrans(s.next, cur, cfg.endDate);
      NoForwardStepNeverFinishes(cfg, rng, s.next, s.pos, fuel - 1);
    }
  }

  /** With `range = 0`, `workdaysOnly` off and a fixed count `k`, each of the
      `fuel` passes emits `k` more dates on the same day: the list grows
      without end instead of stopping after one day's worth. */
  lemma {:induction false} RangeZeroRepeatsDay(cfg: Config, rng: nat -> int, cur: DateTime, pos: nat, fuel: nat)
    requires cfg.range == 0 && !cfg.workdaysOnly && Le(cur, cfg.endDate)
    requires 0 <= cfg.minCommits == cfg.maxCommits
    ensures |Generate(cfg, rng, cur, pos, fuel).dates| == fuel * cfg.minCommits
    ensures forall t :: t in Generate(cfg, rng, cur, pos, fuel).dates ==> t.day == cur.day
    decreases fuel
  {
    if fuel > 0 {
      var s := Step(cfg, rng, cur, pos);
      StepFacts(cfg, rng, cur, pos);
      assert s.next == cur;
      VisitCount(cfg, rng, cur, pos);
      RangeZeroRepeatsDay(cfg, rng, s.next, s.pos, fuel - 1);
      var rest := Generate(cfg, rng, s.next, s.pos, fuel - 1).dates;
      assert Generate(cfg, rng, cur, pos, fuel).dates == s.emitted + rest;
      assert |s.emitted + rest| == cfg.minCommits + (fuel - 1) * cfg.minCommits;
    }
  }

  /** The commit-count bound holds per visit, not per calendar day: with
      `range = 1` an advance of 0 days visits the same day again. Here
      `commitsPerDay = (1, 1)` and every raw draw 0 give two dates on one
      day in two passes. */
  lemma PerDayCanExceedMax(cur: DateTime)
    ensures var cfg := Config(1, 1, false, cur, AddDays(cur, 1), 1);
      var o := Generate(cfg, (k: nat) => 0, cur, 0, 2);
      |o.dates| == 2 && o.dates[0].day == o.dates[1].day == cur.day
  {
    var cfg := Config(1, 1, false, cur, AddDays(cur, 1), 1);
    var rng := (k: nat) => 0;
    var s := Step(cfg, rng, cur, 0);
    assert Burst(cfg, rng, cur, 4, 1) == [];
    assert Burst(cfg, rng, cur, 0, 0) == [CommitDate(cur, rng, 1)];
    assert s == StepResult([CommitDate(cur, rng, 1)], cur, 6);
    var s2 := Step(cfg, rng, cur, 6);
    assert Burst(cfg, rng, cur, 10, 1) == [];
    assert Burst(cfg, rng, cur, 6, 0) == [CommitDate(cur, rng, 7)];
    assert s2 == StepResult([CommitDate(cur, rng, 7)], cur, 12);
    assert Generate(cfg, rng, cur, 12, 0).dates == [];
    assert Generate(cfg, rng, cur, 6, 1).dates == [CommitDate(cur, rng, 7)];
    assert Generate(cfg, rng, cur, 0, 2).dates == [CommitDate(cur, rng, 1), CommitDate(cur, rng, 7)];
  }

  /** When every day from `currentDate`'s up to `endDate`'s is a weekend day
      and `workdaysOnly` is set, nothing is emitted: each visit only advances. */
  lemma {:induction false} WeekendSpanEmpty(cfg: Config, rng: nat -> int, cur: DateTime, pos: nat, fuel: nat)
    requires cfg.workdaysOnly && cfg.range >= 0
    requires forall d :: cur.day <= d <= cfg.endDate.day ==> WeekendDay(d)
    ensures Generate(cfg, rng, cur, pos, fuel).dates == []
    decreases fuel
  {
    if Le(cur, cfg.endDate) && fuel > 0 {
      LeDays(cur, cfg.endDate);
      var s := Step(cfg, rng, cur, pos);
      StepFacts(cfg, rng, cur, pos);
      WeekendSpanEmpty(cfg, rng, s.next, s.pos, fuel - 1);
    }
  }

  /** Saturday 2023-01-07 (day 19364) to Sunday 2023-01-08, `workdaysOnly`,
      `range = 1`: the list is empty for every draw sequence and budget. */
  lemma SaturdaySundayEmpty(minCommits: int, maxCommits: int, rng: nat -> int, fuel: nat)
    ensures Generate(Config(minCommits, maxCommits, true, DateTime(19364, 0, 0, 0, 0),
                            DateTime(19365, 0, 0, 0, 0), 1), rng, DateTime(19364, 0, 0, 0, 0), 0, fuel).dates == []
  {
    var cfg := Config(minCommits, maxCommits, true, DateTime(19364, 0, 0, 0, 0), DateTime(19365, 0, 0, 0, 0), 1);
    assert DayOfWeek(19364) == 6 && DayOfWeek(19365) == 0;
    WeekendSpanEmpty(cfg, rng, cfg.startDate, 0, fuel);
  }

  /** What the source promises of every schedule it builds: an empty list
      when `startDate` is after `endDate`; working-hour times; days no later
      than `endDate`'s; with non-negative advances, days no earlier than
      `startDate`'s and in non-decreasing order; no weekend dates when
      `workdaysOnly` is set; and with `range <= 0` no end of the loop. */
  predicate ScheduleSound(cfg: Config, dates: seq<DateTime>, finished: bool) {
    && (!Le(cfg.startDate, cfg.endDate) ==> dates == [] && finished)
    && (forall t :: t in dates ==> 9 <= t.hour <= 16 && 0 <= t.minute <= 59 && 0 <= t.second <= 59)
    && (forall t :: t in dates ==> t.day <= cfg.endDate.day)
    && (cfg.range >= 0 ==> forall t :: t in dates ==> cfg.startDate.day <= t.day)
    && (cfg.workdaysOnly ==> forall t :: t in dates ==> !IsWeekend(t))
    && (cfg.range >= 0 ==> DaysNondecreasing(dates))
    && (cfg.range <= 0 && Le(cfg.startDate, cfg.endDate) ==> !finished)
  }

  /** Every schedule built from `startDate` with the first draw, within any
      budget of `fuel` passes, keeps those promises. */
  lemma ScheduleProperties(cfg: Config, rng: nat -> int, fuel: nat)
    ensures var o := Generate(cfg, rng, cfg.startDate, 0, fuel); ScheduleSound(cfg, o.dates, o.finished)
  {
    GenerateStops(cfg, rng, cfg.startDate, 0, fuel);
    GenerateTimes(cfg, rng, cfg.startDate, 0, fuel);
    GenerateUntilEnd(cfg, rng, cfg.startDate, 0, fuel);
    if cfg.range >= 0 {
      GenerateFrom(cfg, rng, cfg.startDate, 0, fuel);
      GenerateSorted(cfg, rng, cfg.startDate, 0, fuel);
    }
    if cfg.workdaysOnly {
      GenerateWorkdays(cfg, rng, cfg.startDate, 0, fuel);
    }
    if cfg.range <= 0 && Le(cfg.startDate, cfg.endDate) {
      NoForwardStepNeverFinishes(cfg, rng, cfg.startDate, 0, fuel);
    }
  }
}
