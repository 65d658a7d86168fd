/**
 * The defaults of the ESPP calculator
 * (app/guide/resident_fr/espp/sell_year/grant_fr/report_fr/Calculator.tsx):
 * its first sale is dated the last weekday before today.
 */
module EsppCalculator {
  import opened Wrappers
  import opened Dates
  import opened Weekdays

  /** The calculator's own sale record, with plain numeric rates. */
  datatype CalculatorSale = CalculatorSale(
    quantity: real,
    proceeds: real,
    adjustedCost: real,
    dateAcquired: string,
    dateSold: string,
    rateAcquired: real,
    rateSold: real)

  /** getDefaultState: one share, nothing paid or received, rates 1, both dates the default date. */
  function GetDefaultState(defaultDate: string): (s: CalculatorSale)
    ensures s.quantity == 1.0 && s.proceeds == 0.0 && s.adjustedCost == 0.0
    ensures s.rateAcquired == 1.0 && s.rateSold == 1.0
    ensures s.dateAcquired == defaultDate && s.dateSold == defaultDate
  {
    CalculatorSale(1.0, 0.0, 0.0, defaultDate, defaultDate, 1.0, 1.0)
  }

  /**
   * The lastWeekDay memo: yesterday (today given as a day number, the clock
   * being outside the model), rolled back to Friday on a weekend, as text.
   */
  function LastWeekDayText(today: Day): (r: Result<string, string>)
  {
    var yesterday := today - 1;
    if IsWeekendDay(yesterday) then GetDateString(Some(yesterday - NumDaysSinceLastFriday(yesterday)))
    else GetDateString(Some(yesterday))
  }

  /**
   * The default date names a weekday at most three days back: yesterday, or
   * the Friday before when yesterday was a weekend day.
   */
  lemma DefaultDateIsWeekday(today: Day)
    ensures LastWeekDayText(today) == GetDateString(Some(LastWeekday(today - 1)))
    ensures !IsWeekendDay(LastWeekday(today - 1))
    ensures today - 3 <= LastWeekday(today - 1) < today
  {
    LastWeekdayIsFriday(today - 1);
  }
}
