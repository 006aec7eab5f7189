/**
 * Dates as day numbers: the number of days since 1970-01-01, the epoch
 * pandas uses for its timestamps. Conversion to and from the proleptic
 * Gregorian calendar follows the classic days-from-civil algorithm
 * (eras of 400 years, years starting on the 1st of March).
 */
module Calendar {

  type Day = int

  datatype Civil = Civil(year: int, month: int, day: int)

  /** The day number of a calendar date. */
  function DaysFromCivil(c: Civil): Day
  {
    var y := if c.month <= 2 then c.year - 1 else c.year;
    var era := y / 400;
    var yoe := y - era * 400;
    var mp := (c.month + 9) % 12;
    var doy := (153 * mp + 2) / 5 + c.day - 1;
    var doe := yoe * 365 + yoe / 4 - yoe / 100 + doy;
    era * 146097 + doe - 719468
  }

  /** The calendar date of a day number (inverse of DaysFromCivil). */
  function CivilFromDays(n: Day): Civil
  {
    var z := n + 719468;
    var era := z / 146097;
    var doe := z - era * 146097;
    var yoe := (doe - doe / 1460 + doe / 36524 - doe / 146096) / 365;
    var doy := doe - (365 * yoe + yoe / 4 - yoe / 100);
    var mp := (5 * doy + 2) / 153;
    var d := doy - (153 * mp + 2) / 5 + 1;
    var m := if mp < 10 then mp + 3 else mp - 9;
    Civil(yoe + era * 400 + (if m <= 2 then 1 else 0), m, d)
  }

  /** Shorthand for writing a date constant. */
  function Date(year: int, month: int, day: int): Day
  {
    DaysFromCivil(Civil(year, month, day))
  }

  /** pandas' `dayofweek`: Monday is 0 and Sunday is 6 (1970-01-01 was a Thursday). */
  function DayOfWeek(n: Day): (w: int)
    ensures 0 <= w <= 6
  {
    (n + 3) % 7
  }

  lemma {:induction false} DayOfWeekPeriodic(n: Day, weeks: nat)
    ensures DayOfWeek(n + 7 * weeks) == DayOfWeek(n)
  {
    if weeks > 0 {
      DayOfWeekPeriodic(n, weeks - 1);
      assert n + 7 * weeks + 3 == (n + 7 * (weeks - 1) + 3) + 7;
    }
  }

  /** An inclusive range of days, such as a Ramadan period. */
  datatype Period = Period(start: Day, end: Day)

  predicate InPeriod(d: Day, p: Period)
  {
    p.start <= d <= p.end
  }

  /** Some period of `periods` contains `d`, both ends included. */
  predicate InAnyPeriod(d: Day, periods: seq<Period>)
  {
    exists k :: 0 <= k < |periods| && InPeriod(d, periods[k])
  }

  /** DaysFromCivil evaluated through its intermediate values: the shifted year, the era and the day of the era. */
  lemma DaysFromCivilAt(c: Civil, y: int, era: int, doe: int)
    requires y == (if c.month <= 2 then c.year - 1 else c.year) && era == y / 400
    requires var yoe := y - era * 400;
      doe == yoe * 365 + yoe / 4 - yoe / 100 + (153 * ((c.month + 9) % 12) + 2) / 5 + c.day - 1
    ensures DaysFromCivil(c) == era * 146097 + doe - 719468
  {
  }

  /** Day 0 is 1970-01-01, a Thursday. */
  lemma Epoch()
    ensures Date(1970, 1, 1) == 0
    ensures DayOfWeek(0) == 3
  {
    DaysFromCivilAt(Civil(1970, 1, 1), 1969, 4, 135080);
  }

  /** Adding one period to the list adds exactly its days to the covered set. */
  lemma InAnyPeriodAppend(d: Day, periods: seq<Period>, p: Period)
    ensures InAnyPeriod(d, periods + [p]) <==> InAnyPeriod(d, periods) || InPeriod(d, p)
  {
    var ps := periods + [p];
    if InAnyPeriod(d, periods) {
      var k :| 0 <= k < |periods| && InPeriod(d, periods[k]);
      assert ps[k] == periods[k];
    }
    if InPeriod(d, p) {
      assert ps[|periods|] == p;
    }
    if InAnyPeriod(d, ps) {
      var k :| 0 <= k < |ps| && InPeriod(d, ps[k]);
      if k < |periods| {
        assert ps[k] == periods[k];
      }
    }
  }
}
