/**
 * The weekday helpers of the ESPP calculator, which the exchange-rate hook
 * uses too: rates are only published on weekdays, so a weekend date rolls
 * back to the Friday before. Weekdays are taken in UTC.
 */
module Weekdays {
  import opened Dates

  const Sunday: int := 0
  const Friday: int := 5
  const Saturday: int := 6

  /** isWeekendDay: getDay() % 6 === 0. */
  predicate IsWeekendDay(d: Day)
  {
    DayOfWeek(d) % 6 == 0
  }

  /** IsWeekendDay holds exactly on Sundays and Saturdays. */
  lemma WeekendDays(d: Day)
    ensures IsWeekendDay(d) <==> DayOfWeek(d) == Sunday || DayOfWeek(d) == Saturday
  {
  }

  /** getNumDaysSinceLastFriday: 2 - floor(getDay() / 6). */
  function NumDaysSinceLastFriday(d: Day): (n: int)
    ensures DayOfWeek(d) == Saturday ==> n == 1
    ensures DayOfWeek(d) == Sunday ==> n == 2
  {
    2 - DayOfWeek(d) / 6
  }

  /** The date itself on a weekday, else the Friday before. */
  function LastWeekday(d: Day): (r: Day)
  {
    if IsWeekendDay(d) then d - NumDaysSinceLastFriday(d) else d
  }

  /**
   * A weekday is kept; a Saturday goes back one day and a Sunday two, to a
   * Friday; the result is never a weekend day and rolling back twice is
   * rolling back once.
   */
  lemma LastWeekdayIsFriday(d: Day)
    ensures !IsWeekendDay(d) ==> LastWeekday(d) == d
    ensures DayOfWeek(d) == Saturday ==> LastWeekday(d) == d - 1
    ensures DayOfWeek(d) == Sunday ==> LastWeekday(d) == d - 2
    ensures IsWeekendDay(d) ==> DayOfWeek(LastWeekday(d)) == Friday
    ensures !IsWeekendDay(LastWeekday(d))
    ensures LastWeekday(LastWeekday(d)) == LastWeekday(d)
    ensures d - 2 <= LastWeekday(d) <= d
  {
    if IsWeekendDay(d) {
      var k := (d + 4) / 7;
      assert d + 4 == 7 * k + DayOfWeek(d);
      if DayOfWeek(d) == Saturday {
        assert d - 1 + 4 == 7 * k + Friday;
      } else {
        assert d - 2 + 4 == 7 * (k - 1) + Friday;
      }
    }
  }
}
