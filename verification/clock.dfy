/** Instants, durations and the two ways the printers turn a span of time
    into whole seconds. Go's `time.Time` and `time.Duration` become integers
    counting nanoseconds; float64 rounding is not modelled. */
module Clock {

  /** An instant on the wall clock, in nanoseconds. */
  type Time = int

  /** A signed span of time in nanoseconds, like Go's `time.Duration`. */
  type Duration = int

  const NanosPerSecond: nat := 1_000_000_000

  /** `d.Seconds()`: the span as a real number of seconds. */
  function Seconds(d: Duration): (r: real)
    ensures r * NanosPerSecond as real == d as real
  {
    d as real / NanosPerSecond as real
  }

  /** `math.Ceil`: the least integer not below `x`. */
  function Ceil(x: real): (n: int)
    ensures x <= n as real < x + 1.0
  {
    -((-x).Floor)
  }

  /** `uint(d.Seconds())` for a non-negative span: the conversion drops the
      fraction, so the result counts the whole seconds elapsed. */
  function WholeSeconds(d: nat): (n: nat)
    ensures n * NanosPerSecond <= d < (n + 1) * NanosPerSecond
    ensures n == Seconds(d).Floor
  {
    var n := d / NanosPerSecond;
    var r := Seconds(d);
    assert n as real * NanosPerSecond as real <= r * NanosPerSecond as real;
    assert r * NanosPerSecond as real < (n + 1) as real * NanosPerSecond as real;
    assert n as real <= r < (n + 1) as real;
    n
  }

  /** `math.Ceil(d.Seconds())`: the span rounded up to whole seconds. */
  function SecondsRoundedUp(d: Duration): (n: int)
    ensures (n - 1) * NanosPerSecond < d <= n * NanosPerSecond
  {
    var r := Seconds(d);
    var n := Ceil(r);
    assert r * NanosPerSecond as real == d as real;
    assert (n - 1) as real * NanosPerSecond as real < r * NanosPerSecond as real;
    assert r * NanosPerSecond as real <= n as real * NanosPerSecond as real;
    n
  }
}
