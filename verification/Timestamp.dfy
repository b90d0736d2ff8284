/** Points in time as microseconds: wf_timestamp.h. Seconds given as doubles are modelled as reals. */
module Timestamps {
  const MICROS_REAL: real := 1000000.0

  /** static_cast<int64_t> of a double: towards zero. */
  function Truncated(x: real): int {
    if x >= 0.0 then x.Floor else -(-x).Floor
  }

  /** A span loses less than a microsecond, and never grows. */
  lemma TruncatesTowardsZero(x: real)
    ensures x >= 0.0 ==> x - 1.0 < Truncated(x) as real <= x
    ensures x <= 0.0 ==> x <= Truncated(x) as real < x + 1.0
  {
  }

  function Micros(seconds: real): int {
    Truncated(seconds * MICROS_REAL)
  }

  function Seconds(micros: int): real {
    micros as real / MICROS_REAL
  }

  function AddTime(t: int, seconds: real): int {
    t + Micros(seconds)
  }

  /** In exact arithmetic a span survives the trip through seconds. */
  lemma SecondsRoundTrip(micros: int)
    ensures Micros(Seconds(micros)) == micros
  {
  }
}
