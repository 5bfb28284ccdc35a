/** Timestamps, intervals and the arithmetic that arms the timerfd. */
module Time {

  /** Microseconds since the epoch. */
  type Timestamp = int

  const MICROS_PER_SECOND := 1_000_000
  const NANOS_PER_SECOND := 1_000_000_000

  /** The value of a default-constructed timestamp. */
  const INVALID: Timestamp := 0

  predicate IsValid(t: Timestamp) {
    t > 0
  }

  /** A conversion from floating point to integer drops the fraction, towards zero. */
  function Truncate(x: real): int {
    if x >= 0.0 then x.Floor else -(-x).Floor
  }

  /** The microseconds in an interval given in seconds. */
  function Delta(seconds: real): int {
    Truncate(seconds * MICROS_PER_SECOND as real)
  }

  function AddTime(t: Timestamp, seconds: real): Timestamp {
    t + Delta(seconds)
  }

  /** An interval moves time by the whole microseconds it contains, the fraction dropped towards zero; one that is
      not negative never moves it backwards. */
  lemma AddTimeNeverBackwards(t: Timestamp, seconds: real)
    ensures var d := AddTime(t, seconds) - t;
            && d == Delta(seconds)
            && (seconds >= 0.0 ==> 0 <= d && d as real <= seconds * 1000000.0 < d as real + 1.0)
            && (seconds < 0.0 ==> d <= 0 && d as real - 1.0 < seconds * 1000000.0 <= d as real)
  {
  }

  /** The relative time handed to the timerfd. */
  datatype TimeSpec = TimeSpec(sec: int, nsec: int)

  function HowMuchTimeFromNow(when: Timestamp, now: Timestamp): TimeSpec {
    var distance := when - now;
    var micros := if distance < 100 then 100 else distance;
    TimeSpec(micros / MICROS_PER_SECOND, micros % MICROS_PER_SECOND * 1000)
  }

  /** The relative time is in normal form, denotes exactly the clamped distance, and is never the
      all-zero value with which a timerfd would be disarmed; in absolute terms the timerfd fires at
      `when` unless that is less than 100 microseconds ahead. */
  lemma TimeSpecDenotes(when: Timestamp, now: Timestamp)
    ensures var ts := HowMuchTimeFromNow(when, now);
            && 0 <= ts.sec && 0 <= ts.nsec < NANOS_PER_SECOND
            && ts.sec * NANOS_PER_SECOND + ts.nsec >= 100_000
            && (when - now >= 100 ==> now * 1000 + ts.sec * NANOS_PER_SECOND + ts.nsec == when * 1000)
            && (when - now < 100 ==> ts == TimeSpec(0, 100_000))
  {
  }
}
