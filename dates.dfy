/**
 * UTC calendar arithmetic behind lib/date.ts: a JavaScript Date holding UTC
 * midnight is a whole number of days since 1970-01-01, `Date.UTC` maps a
 * (year, month, day) triple to such a day, and `toISOString` renders it back.
 */
module Dates {
  import opened Wrappers
  import opened JsText

  /** A UTC midnight, as the number of days since 1970-01-01. */
  type Day = int

  /** Date values farther than this many days from the epoch are invalid (TimeClip). */
  const MaxDays: int := 100_000_000

  datatype Civil = Civil(year: int, month: int, day: int)

  predicate IsLeapYear(y: int)
  {
    y % 4 == 0 && (y % 100 != 0 || y % 400 == 0)
  }

  function DaysInYear(y: int): int
  {
    if IsLeapYear(y) then 366 else 365
  }

  function DaysInMonth(y: int, m: int): int
    requires 1 <= m <= 12
  {
    if m == 2 then (if IsLeapYear(y) then 29 else 28)
    else if m == 4 || m == 6 || m == 9 || m == 11 then 30
    else 31
  }

  predicate ValidCivil(c: Civil)
  {
    1 <= c.month <= 12 && 1 <= c.day <= DaysInMonth(c.year, c.month)
  }

  /** Leap years in 1..n of the proleptic Gregorian calendar (floor divisions). */
  function Leaps(n: int): int
  {
    n / 4 - n / 100 + n / 400
  }

  /** The day of January 1st of year y. */
  function DaysBeforeYear(y: int): Day
  {
    365 * (y - 1970) + Leaps(y - 1) - Leaps(1969)
  }

  /** Days of year y before the first of month m. */
  function DaysBeforeMonth(y: int, m: int): int
    requires 1 <= m <= 12
  {
    [0, 31, 59, 90, 120, 151, 181, 212, 243, 273, 304, 334][m - 1]
      + (if m > 2 && IsLeapYear(y) then 1 else 0)
  }

  /** The day of (y, m, d); d may lie outside the month and counts on from its first. */
  function DayFromCivil(y: int, m: int, d: int): Day
    requires 1 <= m <= 12
  {
    DaysBeforeYear(y) + DaysBeforeMonth(y, m) + d - 1
  }

  lemma DivStep(y: int, k: int)
    requires k == 4 || k == 100 || k == 400
    ensures y / k - (y - 1) / k == if y % k == 0 then 1 else 0
  {
  }

  lemma LeapsStep(y: int)
    ensures Leaps(y) - Leaps(y - 1) == if IsLeapYear(y) then 1 else 0
  {
    DivStep(y, 4);
    DivStep(y, 100);
    DivStep(y, 400);
    ModDivides(y);
  }

  lemma ModDivides(y: int)
    ensures y % 400 == 0 ==> y % 100 == 0
    ensures y % 100 == 0 ==> y % 4 == 0
  {
    if y % 400 == 0 {
      var a := y / 400;
      assert y == 100 * (4 * a);
    }
    if y % 100 == 0 {
      var b := y / 100;
      assert y == 4 * (25 * b);
    }
  }

  lemma YearStep(y: int)
    ensures DaysBeforeYear(y + 1) == DaysBeforeYear(y) + DaysInYear(y)
  {
    LeapsStep(y);
  }

  lemma MonthStep(y: int, m: int)
    requires 1 <= m < 12
    ensures DaysBeforeMonth(y, m + 1) == DaysBeforeMonth(y, m) + DaysInMonth(y, m)
  {
  }

  /** A 400-year Gregorian cycle has 146097 days. */
  lemma Cycle(k: int)
    ensures DaysBeforeYear(1970 + 400 * k) == 146097 * k
  {
    var n := 1969 + 400 * k;
    assert n / 4 == 492 + 100 * k;
    assert n / 100 == 19 + 4 * k;
    assert n / 400 == 4 + k;
  }

  /** The year holding day DaysBeforeYear(y) + r, and the day's offset in it. */
  function FindYear(y: int, r: nat): (res: (int, nat))
    ensures res.1 < DaysInYear(res.0)
    ensures DaysBeforeYear(res.0) + res.1 == DaysBeforeYear(y) + r
    decreases r
  {
    if r < DaysInYear(y) then (y, r)
    else
      YearStep(y);
      FindYear(y + 1, r - DaysInYear(y))
  }

  /** The month holding day r of year y, counting from month m, and the offset in it. */
  function FindMonth(y: int, m: int, r: nat): (res: (int, nat))
    requires 1 <= m <= 12
    requires DaysBeforeMonth(y, m) + r < DaysInYear(y)
    ensures 1 <= res.0 <= 12 && res.1 < DaysInMonth(y, res.0)
    ensures DaysBeforeMonth(y, res.0) + res.1 == DaysBeforeMonth(y, m) + r
    decreases 12 - m
  {
    if r < DaysInMonth(y, m) then (m, r)
    else
      MonthStep(y, m);
      FindMonth(y, m + 1, r - DaysInMonth(y, m))
  }

  /** The calendar date of a day: the inverse of DayFromCivil. */
  function CivilFromDay(z: Day): (c: Civil)
    ensures ValidCivil(c)
    ensures DayFromCivil(c.year, c.month, c.day) == z
  {
    var k := z / 146097;
    Cycle(k);
    var (y, r) := FindYear(1970 + 400 * k, z - 146097 * k);
    var (m, d) := FindMonth(y, 1, r);
    Civil(y, m, d + 1)
  }

  lemma {:induction false} YearsIncrease(a: int, b: int)
    requires a < b
    ensures DaysBeforeYear(a) + DaysInYear(a) <= DaysBeforeYear(b)
    decreases b - a
  {
    YearStep(a);
    if a + 1 < b {
      YearsIncrease(a + 1, b);
    }
  }

  lemma WithinYear(c: Civil)
    requires ValidCivil(c)
    ensures DaysBeforeYear(c.year) <= DayFromCivil(c.year, c.month, c.day) < DaysBeforeYear(c.year) + DaysInYear(c.year)
  {
  }

  lemma {:induction false} MonthsIncrease(y: int, a: int, b: int)
    requires 1 <= a < b <= 12
    ensures DaysBeforeMonth(y, a) + DaysInMonth(y, a) <= DaysBeforeMonth(y, b)
    decreases b - a
  {
    MonthStep(y, a);
    if a + 1 < b {
      MonthsIncrease(y, a + 1, b);
    }
  }

  /** Distinct valid dates are distinct days. */
  lemma CivilInjective(a: Civil, b: Civil)
    requires ValidCivil(a) && ValidCivil(b)
    requires DayFromCivil(a.year, a.month, a.day) == DayFromCivil(b.year, b.month, b.day)
    ensures a == b
  {
    WithinYear(a);
    WithinYear(b);
    if a.year < b.year {
      YearsIncrease(a.year, b.year);
    } else if b.year < a.year {
      YearsIncrease(b.year, a.year);
    } else if a.month < b.month {
      MonthsIncrease(a.year, a.month, b.month);
    } else if b.month < a.month {
      MonthsIncrease(a.year, b.month, a.month);
    }
  }

  /** Every valid calendar date is recovered from its day. */
  lemma CivilRoundTrip(c: Civil)
    requires ValidCivil(c)
    ensures CivilFromDay(DayFromCivil(c.year, c.month, c.day)) == c
  {
    CivilInjective(CivilFromDay(DayFromCivil(c.year, c.month, c.day)), c);
  }

  /** Day of the week, 0 for Sunday through 6 for Saturday (1970-01-01 was a Thursday). */
  function DayOfWeek(z: Day): (w: int)
    ensures 0 <= w < 7
  {
    (z + 4) % 7
  }

  /** ToIntegerOrInfinity on a finite number: truncation toward zero. */
  function Truncate(x: real): (n: int)
    ensures 0.0 <= x ==> n as real <= x < n as real + 1.0
    ensures x < 0.0 ==> n as real - 1.0 < x <= n as real
  {
    if x >= 0.0 then x.Floor else -((-x).Floor)
  }

  /**
   * Date.UTC(year, month, date) at midnight, on finite arguments: years 0..99
   * mean 1900..1999, the month is 0-based and overflows into the year, the
   * date counts on from the month's first day; None is the invalid date.
   */
  function DateUtc(year: real, month: real, date: real): (t: Option<Day>)
  {
    var yi := Truncate(year);
    var y := if 0 <= yi <= 99 then 1900 + yi else yi;
    var m := Truncate(month);
    var z := DayFromCivil(y + m / 12, m % 12 + 1, 1) + Truncate(date) - 1;
    if -MaxDays <= z <= MaxDays then Some(z) else None
  }

  /** A whole-number Date.UTC call for a valid date of years 100..9999 names that date. */
  lemma DateUtcOfValid(c: Civil)
    requires ValidCivil(c) && 100 <= c.year <= 9999
    ensures DateUtc(c.year as real, c.month as real - 1.0, c.day as real) == Some(DayFromCivil(c.year, c.month, c.day))
  {
    DayRangeOfYears(c, 100);
    WholeArguments(c);
  }

  /** The whole-number arguments of a valid date truncate to themselves, the month staying in its year. */
  lemma WholeArguments(c: Civil)
    requires ValidCivil(c) && 0 <= c.year <= 9999
    ensures Truncate(c.year as real) == c.year
    ensures Truncate(c.month as real - 1.0) == c.month - 1
    ensures Truncate(c.day as real) == c.day && Truncate(c.day as real - 1.0) == c.day - 1
    ensures (c.month - 1) / 12 == 0 && (c.month - 1) % 12 + 1 == c.month
  {
    assert (c.month - 1) as real == c.month as real - 1.0;
    assert (c.day - 1) as real == c.day as real - 1.0;
  }

  /** Passing date - 1 to Date.UTC names the day before. */
  lemma DateUtcOfDayBefore(c: Civil)
    requires ValidCivil(c) && 100 <= c.year <= 9999
    ensures DateUtc(c.year as real, c.month as real - 1.0, c.day as real - 1.0) == Some(DayFromCivil(c.year, c.month, c.day) - 1)
  {
    DayRangeOfYears(c, 100);
    WholeArguments(c);
  }

  /** The first three `sep`-separated fields read by Number(); None if one is missing or NaN. */
  function NumberTriple(s: string, sep: char): Option<(real, real, real)>
  {
    var parts := Split(s, sep);
    if |parts| < 3 then None
    else
      match (JsNumber(parts[0]), JsNumber(parts[1]), JsNumber(parts[2]))
      case (Some(a), Some(b), Some(c)) => Some((a, b, c))
      case _ => None
  }

  /** Three zero-padded numbers joined by a non-digit separator read back as themselves. */
  lemma NumberTripleOfPadded(x: nat, wx: nat, y: nat, wy: nat, z: nat, wz: nat, sep: char)
    requires 0 < wx && x < Pow10Int(wx) && 0 < wy && y < Pow10Int(wy) && 0 < wz && z < Pow10Int(wz)
    requires !IsDigit(sep)
    ensures NumberTriple(Padded(x, wx) + [sep] + Padded(y, wy) + [sep] + Padded(z, wz), sep)
         == Some((x as real, y as real, z as real))
  {
    SplitThree(Padded(x, wx), Padded(y, wy), Padded(z, wz), sep);
    PaddedReadsBack(x, wx);
    PaddedReadsBack(y, wy);
    PaddedReadsBack(z, wz);
  }

  /** parseEtradeDate: "MM/DD/YYYY" read as month, day, year; None is an invalid date. */
  function ParseEtradeDate(raw: string): (t: Option<Day>)
    ensures |Split(raw, '/')| < 3 ==> t == None
  {
    match NumberTriple(raw, '/')
    case Some((month, day, year)) => DateUtc(year, month - 1.0, day)
    case None => None
  }

  /** The year field of toISOString: four digits, or a sign and six digits outside 0..9999. */
  function IsoYear(y: int): (s: string)
    requires -1_000_000 < y < 1_000_000
    ensures 0 <= y <= 9999 ==> |s| == 4
    ensures !(0 <= y <= 9999) ==> |s| == 7
  {
    if 0 <= y <= 9999 then Padded(y, 4)
    else if y < 0 then "-" + Padded(-y, 6)
    else "+" + Padded(y, 6)
  }

  lemma YearRange(z: Day)
    requires -MaxDays <= z <= MaxDays
    ensures -1_000_000 < CivilFromDay(z).year < 1_000_000
  {
    var y := CivilFromDay(z).year;
    WithinYear(CivilFromDay(z));
    if y >= 1_000_000 {
      YearsIncrease(1_000_000, y + 1);
      Cycle(2500);
    } else if y <= -1_000_000 {
      YearsIncrease(y, -1_000_000);
      Cycle(-2505);
    }
  }

  /** getDateString: the first 10 characters of toISOString; an invalid date throws. */
  function GetDateString(t: Option<Day>): (r: Result<string, string>)
    ensures r.Ok? <==> t.Some? && -MaxDays <= t.value <= MaxDays
    ensures r.Ok? ==> |r.value| == 10
  {
    match t
    case None => Err("RangeError: Invalid time value")
    case Some(z) =>
      if -MaxDays <= z <= MaxDays then
        var c := CivilFromDay(z);
        YearRange(z);
        var iso := IsoYear(c.year) + "-" + Padded(c.month, 2) + "-" + Padded(c.day, 2);
        Ok(iso[..10])
      else Err("RangeError: Invalid time value")
  }

  /** The YYYY-MM-DD text of a date of years 0..9999. */
  function YmdText(c: Civil): string
    requires ValidCivil(c) && 0 <= c.year <= 9999
  {
    Padded(c.year, 4) + "-" + Padded(c.month, 2) + "-" + Padded(c.day, 2)
  }

  /** For years 0..9999 getDateString is the zero-padded YYYY-MM-DD of the UTC date. */
  lemma GetDateStringIsYmd(c: Civil)
    requires ValidCivil(c) && 0 <= c.year <= 9999
    ensures -MaxDays <= DayFromCivil(c.year, c.month, c.day) <= MaxDays
    ensures GetDateString(Some(DayFromCivil(c.year, c.month, c.day))) == Ok(YmdText(c))
  {
    DayRangeOfYears(c, 0);
    CivilRoundTrip(c);
    var z := DayFromCivil(c.year, c.month, c.day);
    YearRange(z);
    var iso := IsoYear(c.year) + "-" + Padded(c.month, 2) + "-" + Padded(c.day, 2);
    assert iso == YmdText(c);
    assert iso[..10] == iso;
  }

  /** Days of the years lo..9999 lie well inside the valid range. */
  lemma DayRangeOfYears(c: Civil, lo: int)
    requires ValidCivil(c) && 0 <= lo <= c.year <= 9999
    ensures DaysBeforeYear(lo) <= DayFromCivil(c.year, c.month, c.day) < DaysBeforeYear(10000)
    ensures -MaxDays <= DayFromCivil(c.year, c.month, c.day) <= MaxDays
  {
    YearsIncrease(c.year, 10000);
    if lo < c.year {
      YearsIncrease(lo, c.year);
    }
    YearsIncrease(-1, lo);
    YearStep(-1);
    Cycle(20);
    Cycle(-5);
    WithinYear(c);
  }

  /** The "MM/DD/YYYY" text E*Trade writes for a date. */
  function EtradeText(c: Civil): string
    requires ValidCivil(c) && 0 <= c.year <= 9999
  {
    Padded(c.month, 2) + "/" + Padded(c.day, 2) + "/" + Padded(c.year, 4)
  }

  lemma NoSeparatorInDigits(s: string, sep: char)
    requires AllDigits(s) && !IsDigit(sep)
    ensures sep !in s
  {
  }

  lemma SplitThree(a: string, b: string, c: string, sep: char)
    requires AllDigits(a) && AllDigits(b) && AllDigits(c) && !IsDigit(sep)
    ensures Split(a + [sep] + b + [sep] + c, sep) == [a, b, c]
  {
    NoSeparatorInDigits(a, sep);
    NoSeparatorInDigits(b, sep);
    NoSeparatorInDigits(c, sep);
    SplitThreeFree(a, b, c, sep);
  }

  lemma SplitThreeFree(a: string, b: string, c: string, sep: char)
    requires sep !in a && sep !in b && sep !in c
    ensures Split(a + [sep] + b + [sep] + c, sep) == [a, b, c]
  {
    var parts := [a, b, c];
    assert parts[1..] == [b, c] && [b, c][1..] == [c];
    assert Join([c], sep) == c;
    assert Join([b, c], sep) == b + [sep] + c;
    assert Join(parts, sep) == a + [sep] + (b + [sep] + c);
    assert a + [sep] + (b + [sep] + c) == a + [sep] + b + [sep] + c;
    SplitJoin(parts, sep);
  }

  lemma ParseEtradeDateCallsDateUtc(c: Civil)
    requires ValidCivil(c) && 0 <= c.year <= 9999
    ensures ParseEtradeDate(EtradeText(c)) == DateUtc(c.year as real, c.month as real - 1.0, c.day as real)
  {
    NumberTripleOfPadded(c.month, 2, c.day, 2, c.year, 4, '/');
  }

  /**
   * parseEtradeDate reads "MM/DD/YYYY" as month, day, year with a 1-based
   * month, and getDateString renders the result as "YYYY-MM-DD".
   */
  lemma ParseEtradeDateOfValid(c: Civil)
    requires ValidCivil(c) && 100 <= c.year <= 9999
    ensures ParseEtradeDate(EtradeText(c)) == Some(DayFromCivil(c.year, c.month, c.day))
    ensures GetDateString(ParseEtradeDate(EtradeText(c))) == Ok(YmdText(c))
  {
    ParseEtradeDateCallsDateUtc(c);
    DateUtcOfValid(c);
    GetDateStringIsYmd(c);
  }

  lemma NoSeparatorInSpaces(s: string, sep: char)
    requires AllJsSpace(s) && !IsJsSpace(sep)
    ensures sep !in s
  {
    forall i | 0 <= i < |s| ensures s[i] != sep {
      assert IsJsSpace(s[i]);
    }
  }

  /** White space before the first field and after the last is ignored by Number(). */
  lemma {:induction false} SpacedTriple(x: string, y: string, z: string, lead: string, trail: string)
    requires '/' !in x && '/' !in y && '/' !in z && AllJsSpace(lead) && AllJsSpace(trail)
    ensures NumberTriple(lead + x + "/" + y + "/" + z + trail, '/') == NumberTriple(x + "/" + y + "/" + z, '/')
  {
    NoSeparatorInSpaces(lead, '/');
    NoSeparatorInSpaces(trail, '/');
    assert '/' !in lead + x && '/' !in z + trail;
    SplitThreeFree(lead + x, y, z + trail, '/');
    assert lead + x + "/" + y + "/" + z + trail == (lead + x) + ['/'] + y + ['/'] + (z + trail);
    SplitThreeFree(x, y, z, '/');
    assert x + "/" + y + "/" + z == x + ['/'] + y + ['/'] + z;
    WhitespaceIgnored(lead, x, "");
    assert lead + x + "" == lead + x;
    WhitespaceIgnored("", z, trail);
    assert "" + z + trail == z + trail;
  }

  /** White space at either end of an E*Trade date cell does not change the day it parses to. */
  lemma SpacedEtradeDate(c: Civil, lead: string, trail: string)
    requires ValidCivil(c) && 100 <= c.year <= 9999 && AllJsSpace(lead) && AllJsSpace(trail)
    ensures ParseEtradeDate(lead + EtradeText(c) + trail) == Some(DayFromCivil(c.year, c.month, c.day))
  {
    var mm, dd, yyyy := Padded(c.month, 2), Padded(c.day, 2), Padded(c.year, 4);
    NoSeparatorInDigits(mm, '/');
    NoSeparatorInDigits(dd, '/');
    NoSeparatorInDigits(yyyy, '/');
    SpacedTriple(mm, dd, yyyy, lead, trail);
    SpacedText(lead, mm + "/" + dd + "/" + yyyy, trail, mm, dd, yyyy);
    SameTripleSameDay(lead + EtradeText(c) + trail, EtradeText(c));
    ParseEtradeDateOfValid(c);
  }

  lemma SpacedText(lead: string, text: string, trail: string, x: string, y: string, z: string)
    requires text == x + "/" + y + "/" + z
    ensures lead + text + trail == lead + x + "/" + y + "/" + z + trail
  {
  }

  lemma SameTripleSameDay(a: string, b: string)
    requires NumberTriple(a, '/') == NumberTriple(b, '/')
    ensures ParseEtradeDate(a) == ParseEtradeDate(b)
  {
  }

  /** getDateString(parseEtradeDate("09/01/2021")) is "2021-09-01". */
  lemma EtradeDateExample()
    ensures GetDateString(ParseEtradeDate("09/01/2021")) == Ok("2021-09-01")
  {
    var c := Civil(2021, 9, 1);
    ExampleTexts();
    ParseEtradeDateOfValid(c);
  }

  lemma ExampleTexts()
    ensures EtradeText(Civil(2021, 9, 1)) == "09/01/2021"
    ensures YmdText(Civil(2021, 9, 1)) == "2021-09-01"
  {
    ExampleDigits();
  }

  lemma ExampleDigits()
    ensures Padded(9, 2) == "09" && Padded(1, 2) == "01" && Padded(2021, 4) == "2021"
  {
    assert Padded(0, 1) == "0";
    assert Padded(9, 2) == "09";
    assert Padded(1, 2) == "01";
    assert Padded(2, 1) == "2";
    assert Padded(20, 2) == "20";
    assert Padded(202, 3) == "202";
  }

  /**
   * The date one step of the price-date search computes from "YYYY-MM-DD":
   * split on "-" and call Date.UTC(year, month - 1, day - 1).
   */
  function PreviousDay(s: string): Option<Day>
  {
    match NumberTriple(s, '-')
    case Some((year, month, day)) => DateUtc(year, month - 1.0, day - 1.0)
    case None => None
  }

  /** One step of the price-date search: the previous day, rendered by getDateString. */
  function PreviousDayText(s: string): (r: Result<string, string>)
    ensures r.Ok? ==> |r.value| == 10
  {
    GetDateString(PreviousDay(s))
  }

  lemma PreviousDayCallsDateUtc(c: Civil)
    requires ValidCivil(c) && 0 <= c.year <= 9999
    ensures PreviousDay(YmdText(c)) == DateUtc(c.year as real, c.month as real - 1.0, c.day as real - 1.0)
  {
    NumberTripleOfPadded(c.year, 4, c.month, 2, c.day, 2, '-');
  }

  /** For years 100..9999 that step is exactly one day back, which the model writes as z - 1. */
  lemma PreviousDayTextIsDayBefore(c: Civil)
    requires ValidCivil(c) && 100 <= c.year <= 9999
    ensures PreviousDay(YmdText(c)) == Some(DayFromCivil(c.year, c.month, c.day) - 1)
    ensures PreviousDayText(YmdText(c)) == GetDateString(Some(DayFromCivil(c.year, c.month, c.day) - 1))
  {
    PreviousDayCallsDateUtc(c);
    DateUtcOfDayBefore(c);
  }

  /**
   * For years 0..99 the step does not go one day back: Date.UTC reads the
   * year as 1900 + year, so the search continues from the day before the
   * same month and day in the 1900s.
   */
  lemma PreviousDayEarlyYears(c: Civil)
    requires ValidCivil(c) && 0 <= c.year <= 99
    ensures PreviousDay(YmdText(c)) == Some(DayFromCivil(1900 + c.year, c.month, c.day) - 1)
  {
    PreviousDayCallsDateUtc(c);
    DateUtcOfEarlyYears(c);
  }

  lemma DateUtcOfEarlyYears(c: Civil)
    requires ValidCivil(c) && 0 <= c.year <= 99
    ensures DateUtc(c.year as real, c.month as real - 1.0, c.day as real - 1.0)
         == Some(DayFromCivil(1900 + c.year, c.month, c.day) - 1)
  {
    WholeArguments(c);
    var y := 1900 + c.year;
    var first := Civil(y, c.month, 1);
    DayRangeOfYears(first, 1900);
    var z := DayFromCivil(y + (c.month - 1) / 12, (c.month - 1) % 12 + 1, 1) + (c.day - 1) - 1;
    assert z == DayFromCivil(y, c.month, 1) + c.day - 2;
    assert z == DayFromCivil(y, c.month, c.day) - 1;
    assert -MaxDays <= z <= MaxDays;
  }

  /**
   * After year 9999 getDateString keeps "+YYYYYY-MM", which has no day
   * field, so the step reads NaN and toISOString throws.
   */
  lemma PreviousDayAfterYear9999(z: Day)
    requires -MaxDays <= z <= MaxDays && CivilFromDay(z).year > 9999
    ensures GetDateString(Some(z)).Ok?
    ensures PreviousDay(GetDateString(Some(z)).value) == None
    ensures PreviousDayText(GetDateString(Some(z)).value).Err?
  {
    var c := CivilFromDay(z);
    YearRange(z);
    var year, month := "+" + Padded(c.year, 6), Padded(c.month, 2);
    var iso := IsoYear(c.year) + "-" + month + "-" + Padded(c.day, 2);
    assert iso[..10] == year + ['-'] + month;
    assert '-' !in year by {
      assert year[0] == '+';
      NoSeparatorInDigits(Padded(c.year, 6), '-');
      assert year[1..] == Padded(c.year, 6);
    }
    NoSeparatorInDigits(month, '-');
    SplitTwoFree(year, month, '-');
  }

  lemma SplitTwoFree(a: string, b: string, sep: char)
    requires sep !in a && sep !in b
    ensures Split(a + [sep] + b, sep) == [a, b]
  {
    var parts := [a, b];
    assert parts[1..] == [b];
    assert Join(parts, sep) == a + [sep] + b;
    SplitJoin(parts, sep);
  }
}
