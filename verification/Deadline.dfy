/** The absolute deadline os_event_wait (linux_user/src/osal_event.c) computes for its timed wait. */
module Deadline {
  import opened Words

  const NANOS: nat := 1_000_000_000

  /** A point in time in nanoseconds. */
  function Instant(sec: int, nsec: int): int
  {
    sec * NANOS + nsec
  }

  /** What gettimeofday reports and a wait the timed branch accepts. */
  predicate ValidTime(sec: int, usec: int, ms: int)
  {
    IsS32(sec) && 0 <= usec < 1_000_000 && 0 < ms < NO_TIMEOUT
  }

  /** The nanosecond sum before the conditional subtraction, in unbounded arithmetic. */
  function RawNanos(usec: int, ms: int): int
  {
    (usec + (ms % 1000) * 1000) * 1000
  }

  /** It never leaves the signed 32-bit range and one subtraction always brings it below a second. */
  lemma RawNanosFits(sec: int, usec: int, ms: int)
    requires ValidTime(sec, usec, ms)
    ensures 0 <= RawNanos(usec, ms) <= 1_998_999_000 < 2 * NANOS
    ensures ToS32(RawNanos(usec, ms)) == RawNanos(usec, ms)
    ensures RawNanos(999_999, 999) == 1_998_999_000
  {
  }

  /** Whole seconds by which the deadline lies ahead of the current second. */
  function SecondsAhead(usec: int, ms: int): int
  {
    (usec + ms * 1000) / 1_000_000
  }

  lemma CarrySplit(usec: int, ms: int)
    requires 0 <= usec < 1_000_000 && 0 <= ms
    ensures ms / 1000 * NANOS + RawNanos(usec, ms) == usec * 1000 + ms * 1_000_000
    ensures SecondsAhead(usec, ms) == ms / 1000 + if RawNanos(usec, ms) >= NANOS then 1 else 0
  {
  }

  /** The deadline is always normalised, and it is now plus the wait, to the nanosecond, exactly
      when the seconds do not run out of the signed 32-bit range. */
  method AbsoluteDeadline(sec: int, usec: int, ms: int) returns (tvSec: int, tvNsec: int)
    requires ValidTime(sec, usec, ms)
    ensures 0 <= tvNsec < NANOS
    ensures Instant(tvSec, tvNsec) == Instant(sec, usec * 1000) + ms * 1_000_000
            <==> sec + SecondsAhead(usec, ms) <= MAX_LONG
  {
    RawNanosFits(sec, usec, ms);
    CarrySplit(usec, ms);
    tvSec := ToS32(sec + ms / 1000);
    tvNsec := ToS32(ToU32((usec + (ms % 1000) * 1000) * 1000));
    assert tvNsec == RawNanos(usec, ms);
    if tvNsec >= 1000000000 {
      tvSec := ToS32(tvSec + 1);
      tvNsec := tvNsec - 1000000000;
    }
    var total := sec + SecondsAhead(usec, ms);
    assert tvSec == if total <= MAX_LONG then total else total - WORD;
  }
}
