/**
 * Proleptic Gregorian calendar dates of day numbers, as the ISO date text
 * `YYYY-MM-DD` of a UTC instant shows them.
 */
module Calendar {
  import opened Types

  datatype CivilDate = CivilDate(year: int, month: int, day: int)

  /**
   * The year, month and day-of-month of day number `d` (0 is 1970-01-01).
   * Days are counted in 400-year eras of 146097 days whose years start on
   * March 1st, so that the leap day is the last day of its year.
   */
  function CivilFromDays(d: Day): (c: CivilDate)
    ensures 1 <= c.month <= 12 && 1 <= c.day <= 31
  {
    var z := d + 719468;
    var era := z / 146097;
    var doe := z - era * 146097;
    var yoe := (doe - doe / 1460 + doe / 36524 - doe / 146096) / 365;
    var doy := doe - (365 * yoe + yoe / 4 - yoe / 100);
    var mp := (5 * doy + 2) / 153;
    var dayOfMonth := doy - (153 * mp + 2) / 5 + 1;
    var month := if mp < 10 then mp + 3 else mp - 9;
    var year := yoe + era * 400 + (if month <= 2 then 1 else 0);
    CivilDate(year, month, dayOfMonth)
  }

  /** Whether the ISO date text of day `d` ends in `-01-01`. */
  predicate IsNewYearsDay(d: Day)
  {
    var c := CivilFromDays(d);
    c.month == 1 && c.day == 1
  }

  /** Day 19723 is 2024-01-01, New Year's Day: day 306 of year 23 of the era that starts on 2000-03-01. */
  lemma NewYear2024()
    ensures CivilFromDays(19723) == CivilDate(2024, 1, 1) && IsNewYearsDay(19723)
  {
    assert 739191 / 146097 == 5 && 8706 / 1460 == 5 && 8706 / 36524 == 0 && 8706 / 146096 == 0;
    assert 8701 / 365 == 23 && 23 / 4 == 5 && 23 / 100 == 0;
    assert 1532 / 153 == 10 && 1532 / 5 == 306;
  }

  /** Day 19722 is 2023-12-31, the day before; it is not New Year's Day. */
  lemma NewYearsEve2023()
    ensures CivilFromDays(19722) == CivilDate(2023, 12, 31) && !IsNewYearsDay(19722)
  {
    assert 739190 / 146097 == 5 && 8705 / 1460 == 5 && 8705 / 36524 == 0 && 8705 / 146096 == 0;
    assert 8700 / 365 == 23 && 23 / 4 == 5 && 23 / 100 == 0;
    assert 1527 / 153 == 9 && 1379 / 5 == 275;
  }
}
