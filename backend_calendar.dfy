/**
 * The calendar and business columns the backend adds to every daily row
 * (backend/main.py, add_calendar_features): weekday and month flags,
 * Ramadan membership, Eid days, the distance to the next Eid and the
 * fixed national holidays.
 */
module BackendCalendar {
  import opened Calendar

  /** 2021-04-13..2021-05-12, 2022-04-03..2022-05-01, 2023-03-23..2023-04-21, 2024-03-12..2024-04-09, 2025-03-01..2025-03-30. */
  const RamadanPeriods: seq<Period> := [
    Period(18730, 18759), Period(19085, 19113), Period(19439, 19468),
    Period(19794, 19822), Period(20148, 20177)]

  /**
   * Eid al-Fitr 2021-05-13, 2022-05-02, 2023-04-22, 2024-04-10, 2025-03-31,
   * then Eid al-Adha 2021-07-11, 2022-07-10, 2023-06-29, 2024-06-08, 2025-06-06.
   */
  const EidDates: seq<Day> := [
    18760, 19114, 19469, 19823, 20178,
    18819, 19183, 19537, 19882, 20245]

  /** The default `days_to_eid` when no Eid lies ahead within a year. */
  const NoEidAhead := 365

  /**
   * `days_to_eid` after folding in `eids` in order: each Eid whose distance
   * `eid - d` is non-negative and below the current value replaces it.
   */
  function DaysToEid(d: Day, eids: seq<Day>): (r: int)
    ensures 0 <= r <= NoEidAhead
    ensures forall k :: 0 <= k < |eids| && eids[k] >= d ==> r <= eids[k] - d
    ensures r == NoEidAhead || exists k :: 0 <= k < |eids| && eids[k] >= d && r == eids[k] - d
  {
    if eids == [] then NoEidAhead
    else
      var n := |eids| - 1;
      var r := DaysToEid(d, eids[..n]);
      var diff := eids[n] - d;
      assert forall k :: 0 <= k < n ==> eids[..n][k] == eids[k];
      if diff < 0 || diff >= r then r else diff
  }

  /** The three properties above pin `days_to_eid` down: it is the minimum of 365 and the distances to the Eids ahead. */
  lemma DaysToEidUnique(d: Day, eids: seq<Day>, r: int)
    requires r <= NoEidAhead
    requires forall k :: 0 <= k < |eids| && eids[k] >= d ==> r <= eids[k] - d
    requires r == NoEidAhead || exists k :: 0 <= k < |eids| && eids[k] >= d && r == eids[k] - d
    ensures r == DaysToEid(d, eids)
  {
    var m := DaysToEid(d, eids);
    if r != NoEidAhead {
      var k :| 0 <= k < |eids| && eids[k] >= d && r == eids[k] - d;
      assert m <= r;
    }
    if m != NoEidAhead {
      var k :| 0 <= k < |eids| && eids[k] >= d && m == eids[k] - d;
      assert r <= m;
    }
  }

  /** On an Eid day itself the distance is 0, and the whole week before an Eid is near it. */
  lemma NearEidBeforeEid(eid: Day, daysBefore: nat, eids: seq<Day>)
    requires eid in eids && daysBefore <= 7
    ensures DaysToEid(eid - daysBefore, eids) <= daysBefore
    ensures daysBefore == 0 ==> DaysToEid(eid, eids) == 0
  {
    var k :| 0 <= k < |eids| && eids[k] == eid;
  }

  /** The `is_ramadan` column: starts at 0 and is set to 1 inside each period in turn. */
  method RamadanColumn(dates: seq<Day>, periods: seq<Period>) returns (col: seq<bool>)
    ensures |col| == |dates|
    ensures forall i :: 0 <= i < |dates| ==> (col[i] <==> InAnyPeriod(dates[i], periods))
  {
    col := seq(|dates|, i => false);
    for k := 0 to |periods|
      invariant |col| == |dates|
      invariant forall i :: 0 <= i < |dates| ==> (col[i] <==> InAnyPeriod(dates[i], periods[..k]))
    {
      var p := periods[k];
      col := seq(|dates|, i requires 0 <= i < |dates| => col[i] || InPeriod(dates[i], p));
      assert periods[..k + 1] == periods[..k] + [p];
      forall i | 0 <= i < |dates|
        ensures col[i] <==> InAnyPeriod(dates[i], periods[..k + 1])
      {
        InAnyPeriodAppend(dates[i], periods[..k], p);
      }
    }
    assert periods[..|periods|] == periods;
  }

  /** The `days_to_eid` column: starts at 365 and is lowered by each Eid ahead in turn. */
  method DaysToEidColumn(dates: seq<Day>, eids: seq<Day>) returns (col: seq<int>)
    ensures |col| == |dates|
    ensures forall i :: 0 <= i < |dates| ==> col[i] == DaysToEid(dates[i], eids)
  {
    col := seq(|dates|, i => NoEidAhead);
    for k := 0 to |eids|
      invariant |col| == |dates|
      invariant forall i :: 0 <= i < |dates| ==> col[i] == DaysToEid(dates[i], eids[..k])
    {
      var eid := eids[k];
      col := seq(|dates|, i requires 0 <= i < |dates| =>
        var diff := eid - dates[i];
        if diff < 0 || diff >= col[i] then col[i] else diff);
      assert eids[..k + 1][..k] == eids[..k];
    }
    assert eids[..|eids|] == eids;
  }

  /** The date columns and flags of one row. */
  datatype CalendarRow = CalendarRow(
    date: Day, year: int, month: int, day: int, dayofweek: int, quarter: int,
    isWeekend: bool, isMonthStart: bool, isMonthEnd: bool,
    isRamadan: bool, isEid: bool, daysToEid: int, nearEid: bool, isHoliday: bool)

  /** (month, day) is New Year's Day, Independence Day (17 August) or Christmas. */
  predicate NationalHoliday(month: int, day: int)
  {
    (month == 1 && day == 1) || (month == 8 && day == 17) || (month == 12 && day == 25)
  }

  /** Builds one row from its date and the two folded columns. */
  function FlagsFor(d: Day, isRamadan: bool, daysToEid: int): (r: CalendarRow)
    ensures r.date == d && r.dayofweek == DayOfWeek(d)
    ensures r.year == CivilFromDays(d).year && r.month == CivilFromDays(d).month && r.day == CivilFromDays(d).day
    ensures r.quarter == (r.month - 1) / 3 + 1
    ensures r.isWeekend <==> DayOfWeek(d) >= 5
    ensures r.isMonthStart <==> r.day == 1
    ensures r.isMonthEnd <==> CivilFromDays(d + 1).day == 1
    ensures r.isEid <==> d in EidDates
    ensures r.nearEid <==> daysToEid <= 7
    ensures r.isHoliday <==> NationalHoliday(r.month, r.day)
    ensures r.isRamadan == isRamadan && r.daysToEid == daysToEid
  {
    var c := CivilFromDays(d);
    CalendarRow(d, c.year, c.month, c.day, DayOfWeek(d), (c.month - 1) / 3 + 1,
                DayOfWeek(d) >= 5, c.day == 1, CivilFromDays(d + 1).day == 1,
                isRamadan, d in EidDates, daysToEid, daysToEid <= 7, NationalHoliday(c.month, c.day))
  }

  /** add_calendar_features over a column of dates. */
  method AddCalendarFeatures(dates: seq<Day>) returns (rows: seq<CalendarRow>)
    ensures |rows| == |dates|
    ensures forall i :: 0 <= i < |dates| ==>
      rows[i] == FlagsFor(dates[i], InAnyPeriod(dates[i], RamadanPeriods), DaysToEid(dates[i], EidDates))
  {
    var ramadan := RamadanColumn(dates, RamadanPeriods);
    var toEid := DaysToEidColumn(dates, EidDates);
    rows := seq(|dates|, i requires 0 <= i < |dates| => FlagsFor(dates[i], ramadan[i], toEid[i]));
  }

  /** A row is near an Eid exactly when some Eid lies zero to seven days ahead. */
  lemma NearEidMeansEidWithinAWeek(d: Day)
    ensures FlagsFor(d, false, DaysToEid(d, EidDates)).nearEid <==>
      exists k :: 0 <= k < |EidDates| && 0 <= EidDates[k] - d <= 7
  {
    var r := DaysToEid(d, EidDates);
    if r <= 7 {
      assert r != NoEidAhead;
      var k :| 0 <= k < |EidDates| && EidDates[k] >= d && r == EidDates[k] - d;
    }
  }

  /** Every Eid day is flagged as such and is at distance 0 from an Eid. */
  lemma EidDayFlags(k: nat)
    requires k < |EidDates|
    ensures FlagsFor(EidDates[k], false, DaysToEid(EidDates[k], EidDates)).isEid
    ensures DaysToEid(EidDates[k], EidDates) == 0
  {
  }

  /** 1970-01-03 was a Saturday and 1970-01-05 a Monday (pandas' dayofweek 5 and 0). */
  lemma WeekendExample()
    ensures FlagsFor(2, false, 0).isWeekend && !FlagsFor(4, false, 0).isWeekend
  {
  }
}
