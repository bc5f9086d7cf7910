/** Go's fixed-width integers and `time.Duration`, with the wrap-around of
    Go's signed 64-bit arithmetic written out. */
module GoTime {

  const TwoTo63: int := 0x8000_0000_0000_0000
  const TwoTo64: int := 0x1_0000_0000_0000_0000

  /** Go's `int64`. */
  type Int64 = x: int | -TwoTo63 <= x < TwoTo63

  /** Go's `time.Duration`: an `int64` count of nanoseconds. */
  type Duration = Int64

  /** `time.Second`. */
  const Second: Duration := 1_000_000_000

  /** The largest whole number of seconds whose duration fits in an `int64`. */
  const MaxSeconds: int := 9_223_372_036

  /** Two's-complement wrap-around of a mathematical integer into `int64`. */
  function Wrap64(x: int): (r: Int64)
    ensures (r - x) % TwoTo64 == 0
    ensures -TwoTo63 <= x < TwoTo63 ==> r == x
  {
    (x + TwoTo63) % TwoTo64 - TwoTo63
  }

  /** `time.Duration(t) * time.Second`: the product is taken in `int64`, so a
      timeout of more than `MaxSeconds` seconds wraps around. */
  function Seconds(t: Int64): (d: Duration)
    ensures -MaxSeconds <= t <= MaxSeconds ==> d == t * Second
    ensures 0 < t <= MaxSeconds ==> d > 0
  {
    Wrap64(t * Second)
  }

  /** A timeout one second beyond `MaxSeconds` wraps to a negative duration. */
  lemma SecondsWrapsBeyondMax()
    ensures Seconds(MaxSeconds + 1) < 0
  {
  }
}
