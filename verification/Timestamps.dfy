/** Times are nanoseconds; a TIMESTAMPTZ column keeps whole microseconds. */
module Timestamps {

  const MICROSECOND := 1_000

  /** What a column keeps of a time: the driver cuts off the rest. */
  function Stored(t: int): (s: int)
    ensures s <= t < s + MICROSECOND && s % MICROSECOND == 0
  {
    t - t % MICROSECOND
  }

  /** A query argument is cut off as well, which makes no difference to `column <= argument`. */
  lemma ComparesWithStored(column: int, argument: int)
    requires column % MICROSECOND == 0
    ensures column <= Stored(argument) <==> column <= argument
  {
  }
}
