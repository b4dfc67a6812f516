/** The East Africa Time day used by every daily limit. Instants are milliseconds. */
module Calendar {

  const EAT_OFFSET_MS: int := 3 * 60 * 60 * 1000
  const DAY_MS: int := 24 * 60 * 60 * 1000

  // The number of the EAT day that contains an instant (floor, also before 1970).
  function Day(t: int): int {
    (t + EAT_OFFSET_MS) / DAY_MS
  }

  function EatDayStartUtc(now: int): int {
    Day(now) * DAY_MS - EAT_OFFSET_MS
  }

  predicate IsEatMidnight(t: int) {
    (t + EAT_OFFSET_MS) % DAY_MS == 0
  }

  // The start is the latest EAT midnight not after `now`; midnight there is 21:00 UTC.
  lemma DayStartIsLastMidnight(now: int)
    ensures EatDayStartUtc(now) % 86_400_000 == 21 * 3_600_000
    ensures IsEatMidnight(EatDayStartUtc(now))
    ensures EatDayStartUtc(now) <= now < EatDayStartUtc(now) + DAY_MS
    ensures forall t :: IsEatMidnight(t) && t <= now ==> t <= EatDayStartUtc(now)
  {
    forall t | IsEatMidnight(t) && t <= now
      ensures t <= EatDayStartUtc(now)
    {
      assert t + EAT_OFFSET_MS == (t + EAT_OFFSET_MS) / DAY_MS * DAY_MS;
    }
  }

  // A window that opens at the day start holds exactly the instants of that day and later days.
  lemma WindowIsDayOrLater(t: int, now: int)
    ensures t >= EatDayStartUtc(now) <==> Day(t) >= Day(now)
  {
  }
}
