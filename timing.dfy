/**
 * Readings of the high-resolution clock and the elapsed-time helper `timeElapsed`.
 * A reading is the pair `[seconds, nanoseconds]` that `process.hrtime()` returns; the clock
 * itself is not modelled, readings are passed in.
 */
module Timing {
  import opened Wrappers

  datatype HrTime = HrTime(sec: nat, ns: nat)

  /** The clock reports the nanosecond part below one second. */
  predicate Normalized(t: HrTime)
  {
    t.ns < 1_000_000_000
  }

  /** A reading as one count of nanoseconds. */
  function Nanos(t: HrTime): int
  {
    t.sec * 1_000_000_000 + t.ns
  }

  /**
   * `timeElapsed(startTime, endTime)`: 0 when either reading is missing, otherwise
   * `(end[0] - start[0]) * 1e3 + (end[1] - start[1]) * 1e-6` milliseconds, over exact reals.
   */
  function ElapsedMs(startTime: Option<HrTime>, endTime: Option<HrTime>): (ms: real)
    ensures startTime.None? || endTime.None? ==> ms == 0.0
    ensures startTime.Some? && endTime.Some? ==>
      ms * 1_000_000.0 == (Nanos(endTime.value) - Nanos(startTime.value)) as real
  {
    if startTime.None? || endTime.None? then 0.0
    else
      (endTime.value.sec - startTime.value.sec) as real * 1000.0
      + (endTime.value.ns - startTime.value.ns) as real * 0.000001
  }

  /** On a clock that did not run backwards the elapsed time is never negative. */
  lemma ElapsedNonNegative(s: HrTime, e: HrTime)
    requires Nanos(s) <= Nanos(e)
    ensures ElapsedMs(Some(s), Some(e)) >= 0.0
  {
  }

  /** Elapsed times over consecutive intervals add up. */
  lemma ElapsedAdditive(a: HrTime, b: HrTime, c: HrTime)
    ensures ElapsedMs(Some(a), Some(b)) + ElapsedMs(Some(b), Some(c)) == ElapsedMs(Some(a), Some(c))
  {
  }

  /** Swapping the readings negates the result. */
  lemma ElapsedAntisymmetric(s: HrTime, e: HrTime)
    ensures ElapsedMs(Some(e), Some(s)) == -ElapsedMs(Some(s), Some(e))
  {
  }

  /** Two normalized readings are the same instant exactly when they are the same pair. */
  lemma NanosInjective(s: HrTime, e: HrTime)
    requires Normalized(s) && Normalized(e)
    ensures Nanos(s) == Nanos(e) <==> s == e
  {
    if s.sec < e.sec {
      assert Nanos(e) >= (s.sec + 1) * 1_000_000_000;
    } else if e.sec < s.sec {
      assert Nanos(s) >= (e.sec + 1) * 1_000_000_000;
    }
  }

  /** For normalized readings, zero elapsed time means the very same reading. */
  lemma ElapsedZeroIffSameReading(s: HrTime, e: HrTime)
    requires Normalized(s) && Normalized(e)
    ensures ElapsedMs(Some(s), Some(e)) == 0.0 <==> s == e
  {
    NanosInjective(s, e);
  }
}
