/** Elapsed time and the nanosecond count `record_event` derives from it. */
module Clock {
  import opened Base

  const NANOS_PER_SEC: nat := 1_000_000_000

  /** The two fields of Rust's `std::time::Duration`. */
  datatype DurationParts = DurationParts(secs: u64, subsecNanos: u32)

  /** A `Duration` keeps its sub-second part below one second. */
  type Duration = d: DurationParts | d.subsecNanos < 1_000_000_000 witness DurationParts(0, 0)

  /** The length of a duration in nanoseconds, without any width limit. */
  function TotalNanos(d: Duration): nat
  {
    d.secs * NANOS_PER_SEC + d.subsecNanos
  }

  /** Rust's derived order on `Duration`: seconds first, then the sub-second part. */
  predicate NotLater(d1: Duration, d2: Duration)
  {
    d1.secs < d2.secs || (d1.secs == d2.secs && d1.subsecNanos <= d2.subsecNanos)
  }

  /** `u64` multiplication and addition as they behave without overflow checks. */
  function WrappingMul(a: u64, b: u64): u64 { (a * b) % U64_MODULUS }
  function WrappingAdd(a: u64, b: u64): u64 { (a + b) % U64_MODULUS }

  /** `as_secs() * 1_000_000_000 + subsec_nanos() as u64`: the exact number of
      nanoseconds whenever it fits in a `u64`, and that number modulo 2^64 in
      general. */
  function NanosSinceStart(d: Duration): (r: u64)
    ensures r == TotalNanos(d) % U64_MODULUS
    ensures TotalNanos(d) < U64_MODULUS ==> r == TotalNanos(d)
  {
    ModAddLeft(d.secs * NANOS_PER_SEC, d.subsecNanos);
    WrappingAdd(WrappingMul(d.secs, NANOS_PER_SEC), d.subsecNanos)
  }

  /** Reducing the left operand first does not change a sum modulo 2^64. */
  lemma ModAddLeft(x: nat, n: nat)
    ensures (x % U64_MODULUS + n) % U64_MODULUS == (x + n) % U64_MODULUS
  {
  }

  /** The order of durations is the order of their nanosecond lengths: the
      sub-second part never reaches a whole second. */
  lemma OrderIsNanosOrder(d1: Duration, d2: Duration)
    ensures NotLater(d1, d2) <==> TotalNanos(d1) <= TotalNanos(d2)
  {
  }

  /** A later elapsed duration never gives a smaller timestamp, as long as the
      later one is below 2^64 nanoseconds (about 584 years). */
  lemma TimestampsMonotone(d1: Duration, d2: Duration)
    requires NotLater(d1, d2)
    requires TotalNanos(d2) < U64_MODULUS
    ensures NanosSinceStart(d1) <= NanosSinceStart(d2)
  {
  }

  /** A reading of the monotonic clock (`Instant`): the time since a fixed,
      unspecified origin. */
  type Instant = Duration

  /** `start.elapsed()` read at `now`, the `Duration` subtraction
      `now - start` with a borrow from the seconds when the sub-second part
      of `start` is larger. The monotonic clock never reads earlier than a
      previous reading; `Profiler` keeps the latest reading to say so. */
  function Elapsed(start: Instant, now: Instant): (d: Duration)
    requires NotLater(start, now)
    ensures TotalNanos(d) == TotalNanos(now) - TotalNanos(start)
  {
    if now.subsecNanos >= start.subsecNanos then
      DurationParts(now.secs - start.secs, now.subsecNanos - start.subsecNanos)
    else
      DurationParts(now.secs - start.secs - 1, now.subsecNanos + NANOS_PER_SEC - start.subsecNanos)
  }

  /** On one thread, a later clock reading never gives a smaller timestamp
      than an earlier one, as long as the later one is less than 2^64
      nanoseconds after time-zero. */
  lemma LaterReadingLaterTimestamp(start: Instant, t1: Instant, t2: Instant)
    requires NotLater(start, t1) && NotLater(t1, t2)
    requires TotalNanos(t2) - TotalNanos(start) < U64_MODULUS
    ensures NotLater(start, t2)
    ensures NanosSinceStart(Elapsed(start, t1)) <= NanosSinceStart(Elapsed(start, t2))
  {
  }

  /** Beyond 2^64 nanoseconds the count wraps: one nanosecond later than
      2^64 - 1 nanoseconds is a much smaller timestamp, so the bound in
      TimestampsMonotone cannot be dropped. */
  lemma WrapBreaksMonotonicity()
    ensures var d1: Duration := DurationParts(18_446_744_073, 709_551_615);
            var d2: Duration := DurationParts(18_446_744_073, 709_551_616);
            NotLater(d1, d2) && NanosSinceStart(d2) == 0 < NanosSinceStart(d1)
  {
  }
}
