/** Instants and the business calendar day (UTC+9, no daylight saving). */
module KstTime {

  // An instant is an integer number of milliseconds; a calendar day is a floor division.

  type Instant = int

  const DAY_MS := 86_400_000
  const KST_UTC_OFFSET_HOURS := 9
  const OFFSET_MS := KST_UTC_OFFSET_HOURS * 3_600_000

  function AddDays(instant: Instant, days: int): Instant {
    instant + days * DAY_MS
  }

  /** The number of the KST day containing the instant; day 0 is 1970-01-01. */
  function KstDay(instant: Instant): int {
    (instant + OFFSET_MS) / DAY_MS
  }

  /** The last millisecond of the UTC day of an already shifted instant. */
  function UtcEndOfDay(shifted: Instant): Instant {
    shifted - shifted % DAY_MS + DAY_MS - 1
  }

  function KstEndOfDay(instant: Instant): Instant {
    UtcEndOfDay(instant + OFFSET_MS) - OFFSET_MS
  }

  /** The end of day is the greatest instant carrying the same day number. */
  lemma EndOfDayIsLast(instant: Instant, other: Instant)
    ensures instant <= KstEndOfDay(instant)
    ensures KstDay(other) == KstDay(instant) ==> other <= KstEndOfDay(instant)
    ensures KstDay(KstEndOfDay(instant)) == KstDay(instant)
    ensures KstDay(KstEndOfDay(instant) + 1) == KstDay(instant) + 1
    ensures KstEndOfDay(KstEndOfDay(instant)) == KstEndOfDay(instant)
  {
    DayBounds(instant);
    DayBounds(other);
    DayBounds(KstEndOfDay(instant));
    DayBounds(KstEndOfDay(instant) + 1);
  }

  lemma DayBounds(instant: Instant)
    ensures KstDay(instant) * DAY_MS - OFFSET_MS <= instant < (KstDay(instant) + 1) * DAY_MS - OFFSET_MS
    ensures KstEndOfDay(instant) == (KstDay(instant) + 1) * DAY_MS - OFFSET_MS - 1
  {
  }

  /** A later charge never has an earlier deadline. */
  lemma DeadlineMonotone(a: Instant, b: Instant, days: int)
    requires a <= b
    ensures KstEndOfDay(AddDays(a, days)) <= KstEndOfDay(AddDays(b, days))
  {
    DayBounds(AddDays(a, days));
    DayBounds(AddDays(b, days));
  }

  /** KST day d is the 86 400 000 milliseconds that start nine hours before UTC day d does. */
  lemma KstDaySpan(instant: Instant, day: int)
    ensures KstDay(instant) == day <==> 86_400_000 * day <= instant + 32_400_000 < 86_400_000 * (day + 1)
  {
    DayBounds(instant);
  }

  /** Adding days moves the KST day by exactly that many and keeps the time of day. */
  lemma AddDaysMovesTheDay(instant: Instant, days: int)
    ensures KstDay(AddDays(instant, days)) == KstDay(instant) + days
    ensures AddDays(instant, days) - 86_400_000 * KstDay(AddDays(instant, days))
         == instant - 86_400_000 * KstDay(instant)
  {
    KstDaySpan(instant, KstDay(instant));
    KstDaySpan(AddDays(instant, days), KstDay(instant) + days);
  }

  /** The end of a day has passed exactly when the next millisecond belongs to a later day. */
  lemma PastEndOfDay(instant: Instant, now: Instant)
    ensures KstEndOfDay(instant) <= now <==> KstDay(now + 1) > KstDay(instant)
  {
    DayBounds(instant);
    DayBounds(now + 1);
  }
}
