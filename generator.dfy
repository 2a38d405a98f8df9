/** The commit-date schedule generator `createCommitDateList`.

    Randomness is an explicit stream `rng`: the k-th call of
    `getRandomIntInclusive` uses `rng(k)`. The source's loop need not end
    (with `range = 0` the day never advances), so the outer loop is given a
    budget of `fuel` visits; the result says whether the loop ended on its
    own condition (`finished`) or because the budget ran out. */
module Generator {
  import opened Dates
  import opened Random

  /** Generator inputs, already parsed into integers and date-times. */
  datatype Config = Config(
    minCommits: int,        // commitsPerDay[0]
    maxCommits: int,        // commitsPerDay[1]
    workdaysOnly: bool,
    startDate: DateTime,
    endDate: DateTime,
    range: int)             // upper bound of every day advance; the lower bound is 0

  /** What one pass of the outer loop produces: the dates it appends, the
      new `currentDate`, and the index of the next unused draw. */
  datatype StepResult = StepResult(emitted: seq<DateTime>, next: DateTime, pos: nat)

  /** The list built so far and whether `currentDate <= endDate` became false. */
  datatype Outcome = Outcome(dates: seq<DateTime>, finished: bool)

  /** The commit date built from `day`: random hour in 9..16, minute and
      second in 0..59, drawn in that order from `rng(pos)`, `rng(pos + 1)`,
      `rng(pos + 2)`. */
  function CommitDate(day: DateTime, rng: nat -> int, pos: nat): (t: DateTime)
    ensures t.day == day.day && t.milli == day.milli
    ensures 9 <= t.hour <= 16 && 0 <= t.minute <= 59 && 0 <= t.second <= 59
  {
    var withHours := SetHours(day, GetRandomIntInclusive(9, 16, rng(pos)));
    var withMinutes := SetMinutes(withHours, GetRandomIntInclusive(0, 59, rng(pos + 1)));
    SetSeconds(withMinutes, GetRandomIntInclusive(0, 59, rng(pos + 2)))
  }

  /** The counter value at which the inner `for` loop exits, when its
      condition is tested at counter value `i` with the draw `rng(test)`.
      Every test of `i < getRandomIntInclusive(...commitsPerDay)` makes a
      fresh draw, and each pass of the body makes three more, so the next
      test uses `rng(test + 4)`. The loop exits at the first counter value
      that is not below its own draw. */
  function StopCount(cfg: Config, rng: nat -> int, test: nat, i: nat): (n: nat)
    ensures i <= n
    decreases DrawCeiling(cfg.minCommits, cfg.maxCommits) - i
  {
    if i < GetRandomIntInclusive(cfg.minCommits, cfg.maxCommits, rng(test)) then
      StopCount(cfg, rng, test + 4, i + 1)
    else
      i
  }

  /** The dates the inner loop appends on day `cur` from counter value `i`,
      when its condition is tested with the draw `rng(test)`: while the
      counter is below the draw, one commit date whose hour, minute and
      second come from the next three draws, then the loop goes on. */
  function Burst(cfg: Config, rng: nat -> int, cur: DateTime, test: nat, i: nat): seq<DateTime>
    decreases DrawCeiling(cfg.minCommits, cfg.maxCommits) - i
  {
    if i < GetRandomIntInclusive(cfg.minCommits, cfg.maxCommits, rng(test)) then
      [CommitDate(cur, rng, test + 1)] + Burst(cfg, rng, cur, test + 4, i + 1)
    else
      []
  }

  /** The number of draws a burst of `n` dates uses: one per test of the
      loop condition and three per date. */
  function BurstDraws(n: nat): nat {
    4 * n + 1
  }

  /** One pass of the `while` loop body at `currentDate = cur`. */
  function Step(cfg: Config, rng: nat -> int, cur: DateTime, pos: nat): StepResult
  {
    if cfg.workdaysOnly && IsWeekend(cur) then
      StepResult([], AddDays(cur, GetRandomIntInclusive(0, cfg.range, rng(pos))), pos + 1)
    else
      var b := Burst(cfg, rng, cur, pos, 0);
      var p := pos + BurstDraws(|b|);
      StepResult(b, AddDays(cur, GetRandomIntInclusive(0, cfg.range, rng(p))), p + 1)
  }

  /** The `while (currentDate <= endDate)` loop from `cur`, for at most
      `fuel` more passes. */
  function Generate(cfg: Config, rng: nat -> int, cur: DateTime, pos: nat, fuel: nat): Outcome
    decreases fuel, 0
  {
    if !Le(cur, cfg.endDate) then Outcome([], true)
    else if fuel == 0 then Outcome([], false)
    else Visit(cfg, rng, cur, pos, fuel - 1)
  }

  /** One pass of the loop body at `cur`, then the loop for at most `fuel`
      more passes from the pass's new date and draw index. */
  function Visit(cfg: Config, rng: nat -> int, cur: DateTime, pos: nat, fuel: nat): Outcome
    decreases fuel, 1
  {
    var s := Step(cfg, rng, cur, pos);
    var rest := Generate(cfg, rng, s.next, s.pos, fuel);
    Outcome(s.emitted + rest.dates, rest.finished)
  }

  /** What a run of the inner loop appends: one date per pass, so as many
      as the counter advances before the loop exits; all on day `cur` with
      its milliseconds, each at an hour in 9..16 with minute and second in
      0..59. */
  lemma {:induction false} BurstFacts(cfg: Config, rng: nat -> int, cur: DateTime, test: nat, i: nat)
    ensures i + |Burst(cfg, rng, cur, test, i)| == StopCount(cfg, rng, test, i)
    ensures forall t :: t in Burst(cfg, rng, cur, test, i) ==> t.day == cur.day && t.milli == cur.milli
    ensures forall t :: t in Burst(cfg, rng, cur, test, i) ==>
              9 <= t.hour <= 16 && 0 <= t.minute <= 59 && 0 <= t.second <= 59
    decreases DrawCeiling(cfg.minCommits, cfg.maxCommits) - i
  {
    if i < GetRandomIntInclusive(cfg.minCommits, cfg.maxCommits, rng(test)) {
      BurstFacts(cfg, rng, cur, test + 4, i + 1);
    }
  }

  /** The k-th date of a run takes its hour, minute and second from the
      three draws after the k-th test of the loop condition. */
  lemma {:induction false} BurstAt(cfg: Config, rng: nat -> int, cur: DateTime, test: nat, i: nat)
    ensures forall k :: 0 <= k < |Burst(cfg, rng, cur, test, i)| ==>
              Burst(cfg, rng, cur, test, i)[k] == CommitDate(cur, rng, test + 4 * k + 1)
    decreases DrawCeiling(cfg.minCommits, cfg.maxCommits) - i
  {
    if i < GetRandomIntInclusive(cfg.minCommits, cfg.maxCommits, rng(test)) {
      BurstAt(cfg, rng, cur, test + 4, i + 1);
      var rest := Burst(cfg, rng, cur, test + 4, i + 1);
      forall k | 0 <= k < |rest| + 1
        ensures ([CommitDate(cur, rng, test + 1)] + rest)[k] == CommitDate(cur, rng, test + 4 * k + 1)
      {
        if k > 0 {
          assert rest[k - 1] == CommitDate(cur, rng, test + 4 + 4 * (k - 1) + 1);
        }
      }
    }
  }

  /** One pass of the loop body uses at least one draw, moves
      `currentDate` by a draw in `[0, range]` days keeping its time of day,
      emits nothing on a skipped weekend day, and emits only dates on the
      current day at working hours. */
  lemma StepFacts(cfg: Config, rng: nat -> int, cur: DateTime, pos: nat)
    ensures var r := Step(cfg, rng, cur, pos); r.pos > pos && SameTimeOfDay(r.next, cur)
    ensures var r := Step(cfg, rng, cur, pos);
      cfg.range >= 0 ==> cur.day <= r.next.day <= cur.day + cfg.range
    ensures cfg.range <= 0 ==> Step(cfg, rng, cur, pos).next.day <= cur.day
    ensures cfg.workdaysOnly && IsWeekend(cur) ==> Step(cfg, rng, cur, pos).emitted == []
    ensures forall t :: t in Step(cfg, rng, cur, pos).emitted ==> t.day == cur.day
    ensures forall t :: t in Step(cfg, rng, cur, pos).emitted ==>
              9 <= t.hour <= 16 && 0 <= t.minute <= 59 && 0 <= t.second <= 59
  {
    if !(cfg.workdaysOnly && IsWeekend(cur)) {
      BurstFacts(cfg, rng, cur, pos, 0);
    }
  }

  /** Once `currentDate` is past `endDate` the loop stops at once with an
      empty list; with no budget left nothing more is emitted. */
  lemma GenerateStops(cfg: Config, rng: nat -> int, cur: DateTime, pos: nat, fuel: nat)
    ensures !Le(cur, cfg.endDate) ==> Generate(cfg, rng, cur, pos, fuel) == Outcome([], true)
    ensures fuel == 0 ==> Generate(cfg, rng, cur, pos, fuel).dates == []
  {
  }

  /** One pass of the `while` loop: while `currentDate <= endDate` and the
      budget lasts, the list from `cur` is what the pass emits followed by
      the list from the pass's new date and draw index. */
  lemma GenerateAdvance(cfg: Config, rng: nat -> int, cur: DateTime, pos: nat, fuel: nat,
                        done: seq<DateTime>, whole: Outcome,
                        emitted: seq<DateTime>, next: DateTime, nextPos: nat)
    requires Le(cur, cfg.endDate) && fuel > 0
    requires StepResult(emitted, next, nextPos) == Step(cfg, rng, cur, pos)
    requires done + Generate(cfg, rng, cur, pos, fuel).dates == whole.dates
    requires Generate(cfg, rng, cur, pos, fuel).finished == whole.finished
    ensures (done + emitted) + Generate(cfg, rng, next, nextPos, fuel - 1).dates == whole.dates
    ensures Generate(cfg, rng, next, nextPos, fuel - 1).finished == whole.finished
  {
    var rest := Generate(cfg, rng, next, nextPos, fuel - 1);
    assert Generate(cfg, rng, cur, pos, fuel).dates == emitted + rest.dates;
    assert (done + emitted) + rest.dates == done + (emitted + rest.dates);
  }

  /** The day components never decrease along the list. */
  predicate DaysNondecreasing(dates: seq<DateTime>) {
    forall i, j :: 0 <= i < j < |dates| ==> dates[i].day <= dates[j].day
  }
}
