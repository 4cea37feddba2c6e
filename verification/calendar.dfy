/**
 * The message selector: from the local weekday and time of day to one of
 * three announcements. The clock is an input; Go's `time.Weekday` numbering
 * is kept (Sunday = 0 ... Saturday = 6).
 */
module Calendar {

  type Weekday = d: int | 0 <= d <= 6

  const Sunday: Weekday := 0
  const Monday: Weekday := 1
  const Thursday: Weekday := 4
  const Friday: Weekday := 5
  const Saturday: Weekday := 6

  const NanosPerSecond: nat := 1_000_000_000
  const NanosPerDay: nat := 24 * 60 * 60 * NanosPerSecond

  /** The wall-clock time of day, in nanoseconds (00:00:00.000 is 0). */
  type DayNanos = n: int | 0 <= n < NanosPerDay

  /** The local wall clock at the moment of the request. */
  datatype LocalTime = LocalTime(weekday: Weekday, sinceMidnight: DayNanos)

  /** 10:15:00.000 local, the `then` the handlers compare against. */
  const Cutoff: DayNanos := (10 * 60 + 15) * 60 * NanosPerSecond

  /** `now.After(then)`: strictly later than the cutoff. */
  predicate After(t: LocalTime) {
    t.sinceMidnight > Cutoff
  }

  /** Which day the user announces working from home. */
  datatype Template = Today | Tomorrow | OnMonday

  /**
   * The selector of internal/wfh and of main.go: the weekend and Friday
   * after the cutoff announce Monday, other days after the cutoff announce
   * tomorrow, and everything at or before the cutoff on Monday to Friday
   * announces today.
   */
  function Select(t: LocalTime): (m: Template)
    ensures m == OnMonday <==> t.weekday == Sunday || t.weekday == Saturday || (t.weekday == Friday && After(t))
    ensures m == Tomorrow <==> Monday <= t.weekday <= Thursday && After(t)
    ensures m == Today <==> Monday <= t.weekday <= Friday && !After(t)
  {
    if t.weekday == 0 || t.weekday > 5 || (t.weekday == 5 && After(t)) then OnMonday
    else if After(t) then Tomorrow
    else Today
  }

  /**
   * The older selector of the generator package: any weekday numbered
   * above Thursday announces Monday all day, and Sunday falls through to
   * the time test.
   */
  function SelectWeekdayOver4(t: LocalTime): (m: Template)
    ensures t.weekday == Friday || t.weekday == Saturday ==> m == OnMonday
    ensures t.weekday == Sunday ==> m != OnMonday
    ensures t.weekday <= Thursday ==> (m == Tomorrow <==> After(t)) && (m == Today <==> !After(t))
  {
    if t.weekday > 4 then OnMonday
    else if After(t) then Tomorrow
    else Today
  }

  /** Exactly 10:15:00.000 is not after the cutoff, so a working day still announces today. */
  lemma CutoffInstantIsBefore(d: Weekday)
    requires Monday <= d <= Friday
    ensures Select(LocalTime(d, Cutoff)) == Today
    ensures SelectWeekdayOver4(LocalTime(d, Cutoff)) == (if d == Friday then OnMonday else Today)
  {
  }

  /** Within one day the announcement moves away from "today" at most once, at the cutoff. */
  lemma TodayOnlyBeforeLater(t1: LocalTime, t2: LocalTime)
    requires t1.weekday == t2.weekday && t1.sinceMidnight <= t2.sinceMidnight
    ensures Select(t2) == Today ==> Select(t1) == Today
    ensures Select(t1) != Today ==> Select(t2) == Select(t1)
    ensures SelectWeekdayOver4(t2) == Today ==> SelectWeekdayOver4(t1) == Today
    ensures SelectWeekdayOver4(t1) != Today ==> SelectWeekdayOver4(t2) == SelectWeekdayOver4(t1)
  {
  }

  /** The two selectors agree exactly from Monday to Thursday, on Saturday, and on Friday after the cutoff. */
  lemma SelectorsAgree(t: LocalTime)
    ensures Select(t) == SelectWeekdayOver4(t) <==>
              (Monday <= t.weekday <= Thursday || t.weekday == Saturday || (t.weekday == Friday && After(t)))
  {
  }

  /** Where they differ: Sunday, and Friday up to the cutoff. */
  lemma SelectorsDiffer(t: LocalTime)
    ensures t.weekday == Sunday ==>
              Select(t) == OnMonday && SelectWeekdayOver4(t) == (if After(t) then Tomorrow else Today)
    ensures t.weekday == Friday && !After(t) ==>
              Select(t) == Today && SelectWeekdayOver4(t) == OnMonday
  {
  }
}
