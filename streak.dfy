/** The daily-claim streak: the day of the last claim and the number of
    consecutive days claimed up to it. */
module Streaks {
  import opened Types

  /** Length of a UTC day in milliseconds. */
  const DAY_MS: nat := 24 * 60 * 60 * 1000

  datatype Streak = Streak(lastClaimDay: Option<nat>, days: nat)

  const NO_STREAK := Streak(None, 0)

  /** The UTC day a timestamp falls on. */
  function DayIndex(ts: Timestamp): (r: nat)
    ensures r * DAY_MS <= ts < (r + 1) * DAY_MS
  {
    ts / DAY_MS
  }

  /** The claim falls on the day right after the last claimed day. */
  predicate IsNextDay(s: Streak, day: nat)
  {
    s.lastClaimDay.Some? && s.lastClaimDay.value + 1 == day
  }

  /** `streak.claim(timestamp)`: a second claim on the same day is refused
      and changes nothing; otherwise the streak is extended by one day when
      the claim follows the last claimed day, and restarts at 1 when not. */
  function Claim(s: Streak, ts: Timestamp): (r: (bool, Streak))
    ensures !r.0 <==> s.lastClaimDay == Some(DayIndex(ts))
    ensures !r.0 ==> r.1 == s
    ensures r.0 ==> r.1.lastClaimDay == Some(DayIndex(ts))
    ensures r.0 ==> 1 <= r.1.days <= s.days + 1
    ensures r.0 && IsNextDay(s, DayIndex(ts)) ==> r.1.days == s.days + 1
    ensures r.0 && !IsNextDay(s, DayIndex(ts)) ==> r.1.days == 1
  {
    var day := DayIndex(ts);
    if s.lastClaimDay == Some(day) then (false, s)
    else (true, Streak(Some(day), if IsNextDay(s, day) then s.days + 1 else 1))
  }

  /** `streak.days(timestamp)`: the count left by the latest claim. The
      timestamp is not consulted; the engine reads the count right after a
      successful claim at that same timestamp. */
  function Days(s: Streak, ts: Timestamp): nat
  {
    s.days
  }

  /** Read right after a successful claim, the count is one more than
      before on the next day, and 1 on any other day. */
  lemma DaysAfterClaim(s: Streak, ts: Timestamp)
    requires Claim(s, ts).0
    ensures Days(Claim(s, ts).1, ts) == (if IsNextDay(s, DayIndex(ts)) then s.days + 1 else 1)
    ensures 1 <= Days(Claim(s, ts).1, ts)
  {
  }

  /** A claim dated on a day before the last claimed one is accepted as a
      new claim: the recorded day moves back and the count restarts at 1. */
  lemma ClaimOnEarlierDay(s: Streak, ts: Timestamp)
    requires s.lastClaimDay.Some? && DayIndex(ts) < s.lastClaimDay.value
    ensures Claim(s, ts) == (true, Streak(Some(DayIndex(ts)), 1))
  {
  }

  /** Claiming again on the same day reports false and leaves the streak as is. */
  lemma ClaimTwiceSameDay(s: Streak, ts: Timestamp, later: Timestamp)
    requires DayIndex(later) == DayIndex(ts)
    ensures Claim(Claim(s, ts).1, later) == (false, Claim(s, ts).1)
  {
  }

  /** Claims on days 0, 1, 2 give streaks 1, 2, 3; a repeat on day 2 keeps 3;
      a claim on day 12 afterwards restarts at 1. */
  lemma ClaimScenarios()
    ensures Claim(NO_STREAK, 0).1.days == 1
    ensures Claim(Claim(NO_STREAK, 0).1, DAY_MS).1.days == 2
    ensures Claim(Claim(Claim(NO_STREAK, 0).1, DAY_MS).1, 2 * DAY_MS).1.days == 3
    ensures Claim(Claim(Claim(Claim(NO_STREAK, 0).1, DAY_MS).1, 2 * DAY_MS).1, 2 * DAY_MS + 5).0 == false
    ensures Claim(Claim(Claim(NO_STREAK, 0).1, DAY_MS).1, 12 * DAY_MS).1.days == 1
  {
  }
}
