/**
 * The arithmetic of a measurement: halving the echo duration with C's
 * truncating `long` division, scaling it to millimetres, and the
 * float-to-`short` cast that `checkRange` applies before classifying.
 * Floating point is modelled by exact reals.
 */
module Conversion {
  import opened Header

  /** Millimetres per microsecond of one-way echo time. */
  const SCALE: real := 0.3432

  /** C's `n / 2` on a `long`: the quotient is truncated toward zero. */
  function HalfDuration(n: Long): (q: int)
    ensures 0 <= n ==> 0 <= 2 * q <= n < 2 * q + 2
    ensures n < 0 ==> 2 * q - 2 < n <= 2 * q <= 0
  {
    if n >= 0 then n / 2 else -((-(n as int)) / 2)
  }

  /** The distance `ping` computes from an echo of `duration` microseconds. */
  function EchoToDistance(duration: Long): (d: real)
    ensures 0 <= duration < 2 ==> d == 0.0
    ensures 0 <= duration ==> 0.0 <= d <= duration as real * (SCALE / 2.0)
    ensures duration < 0 ==> d <= 0.0
  {
    HalfDuration(duration) as real * SCALE
  }

  /** A longer echo never yields a shorter distance. */
  lemma EchoToDistanceMonotone(d1: Long, d2: Long)
    requires d1 <= d2
    ensures EchoToDistance(d1) <= EchoToDistance(d2)
  {
  }

  /** Conversion of a real to an integer, truncating toward zero. */
  function Trunc(x: real): (t: int)
    ensures 0.0 <= x ==> t as real <= x < t as real + 1.0
    ensures x < 0.0 ==> t as real - 1.0 < x <= t as real
  {
    if x >= 0.0 then x.Floor else -((-x).Floor)
  }

  /** The low 16 bits of `i`, read as a signed `short`. */
  function WrapShort(i: int): (s: Short)
    ensures -0x8000 <= i < 0x8000 ==> s == i
    ensures (s - i) % 0x1_0000 == 0
  {
    (i + 0x8000) % 0x1_0000 - 0x8000
  }

  /** The `(short)` cast of a distance: truncation toward zero, then 16-bit wrap-around. */
  function ToShort(x: real): (s: Short)
    ensures -32769.0 < x < 32768.0 ==> s == Trunc(x)
  {
    WrapShort(Trunc(x))
  }

  /** An integral value in `short` range survives the cast unchanged. */
  lemma ToShortIntegral(k: Short)
    ensures ToShort(k as real) == k
  {
  }
}
