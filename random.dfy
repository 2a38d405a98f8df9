/** The bounded integer draw `getRandomIntInclusive(min, max)`.
    `Math.floor(Math.random() * (max - min + 1)) + min` is abstracted by a
    raw integer `raw` proposed by the random source and clamped into the
    set of values the expression can produce; only that set is modelled,
    not the distribution. For an inverted range (`min > max`) the width
    `max - min + 1` is zero or negative, the floored product lies in
    `[max - min + 1, 0]`, and the draw lies in `[max + 1, min]`; the model
    reproduces that too. */
module Random {

  /** Smallest value a draw between `min` and `max` can take, in either order. */
  function DrawFloor(min: int, max: int): int {
    if min <= max then min else max + 1
  }

  /** Largest value a draw between `min` and `max` can take, in either order. */
  function DrawCeiling(min: int, max: int): int {
    if min <= max then max else min
  }

  /** The draw for integer bounds `min`, `max` and raw randomness `raw`. */
  function GetRandomIntInclusive(min: int, max: int, raw: int): (v: int)
    ensures min <= max ==> min <= v <= max
    ensures max < min ==> max < v <= min
    ensures DrawFloor(min, max) <= v <= DrawCeiling(min, max)
  {
    var lo, hi := DrawFloor(min, max), DrawCeiling(min, max);
    if raw < lo then lo else if hi < raw then hi else raw
  }

  /** Every value between the draw's floor and ceiling is reached by some
      raw randomness, so the model leaves out none of the source's draws. */
  lemma DrawCovers(min: int, max: int, v: int)
    requires DrawFloor(min, max) <= v <= DrawCeiling(min, max)
    ensures exists raw: int :: GetRandomIntInclusive(min, max, raw) == v
  {
    assert GetRandomIntInclusive(min, max, v) == v;
  }
}
