/**
 * The offline pipeline's business calendar (backend/umkm_python_code.py,
 * define_external_variables, is_in_ramadan, calculate_closure_days and
 * the day flags of preprocess_data): the shop closes on Sundays outside
 * Ramadan, on the days around each Eid and on national holidays.
 */
module PipelineCalendar {
  import opened Calendar

  /** The calendar inputs of the pipeline. */
  datatype ExternalVariables = ExternalVariables(
    ramadan: seq<Period>, eidFitr: seq<Day>, eidAdha: seq<Day>, nationalHolidays: seq<Day>)

  /** The first and last year with national holidays. */
  const FirstYear := 2021
  const LastYear := 2025

  /** (month, day) of New Year's Day, Independence Day and Christmas, in list order. */
  function HolidayOfYear(year: int, j: nat): Day
    requires j < 3
  {
    if j == 0 then Date(year, 1, 1) else if j == 1 then Date(year, 8, 17) else Date(year, 12, 25)
  }

  /** define_external_variables: the fixed lists, and three holidays for each year 2021..2025 appended in a loop. */
  method DefineExternalVariables() returns (ext: ExternalVariables)
    ensures ext.ramadan == [Period(18730, 18759), Period(19085, 19113), Period(19439, 19468),
                            Period(19794, 19822), Period(20148, 20177)]
    ensures ext.eidFitr == [18760, 19114, 19469, 19823, 20178]
    ensures ext.eidAdha == [18819, 19183, 19537, 19882, 20245]
    ensures |ext.nationalHolidays| == 3 * (LastYear - FirstYear + 1) == 15
    ensures forall i :: 0 <= i < |ext.nationalHolidays| ==>
      ext.nationalHolidays[i] == HolidayOfYear(FirstYear + i / 3, i % 3)
  {
    // 2021-04-13..2021-05-12, 2022-04-03..2022-05-01, 2023-03-23..2023-04-21, 2024-03-12..2024-04-09, 2025-03-01..2025-03-30
    var ramadan := [Period(18730, 18759), Period(19085, 19113), Period(19439, 19468),
                    Period(19794, 19822), Period(20148, 20177)];
    // 2021-05-13, 2022-05-02, 2023-04-22, 2024-04-10, 2025-03-31
    var fitr := [18760, 19114, 19469, 19823, 20178];
    // 2021-07-11, 2022-07-10, 2023-06-29, 2024-06-08, 2025-06-06
    var adha := [18819, 19183, 19537, 19882, 20245];
    var holidays: seq<Day> := [];
    for year := FirstYear to LastYear + 1
      invariant |holidays| == 3 * (year - FirstYear)
      invariant forall i :: 0 <= i < |holidays| ==> holidays[i] == HolidayOfYear(FirstYear + i / 3, i % 3)
    {
      var n := |holidays|;
      holidays := holidays + [Date(year, 1, 1), Date(year, 8, 17), Date(year, 12, 25)];
      assert n / 3 == year - FirstYear && (n + 1) / 3 == year - FirstYear && (n + 2) / 3 == year - FirstYear;
      assert n % 3 == 0 && (n + 1) % 3 == 1 && (n + 2) % 3 == 2;
    }
    ext := ExternalVariables(ramadan, fitr, adha, holidays);
  }

  /** is_in_ramadan: scans the periods and stops at the first one containing the day. */
  method IsInRamadan(d: Day, periods: seq<Period>) returns (b: bool)
    ensures b <==> InAnyPeriod(d, periods)
  {
    for k := 0 to |periods|
      invariant !InAnyPeriod(d, periods[..k])
    {
      if periods[k].start <= d <= periods[k].end {
        assert InPeriod(d, periods[..k + 1][k]);
        assert periods[..k + 1][k] == periods[k];
        return true;
      }
      InAnyPeriodAppend(d, periods[..k], periods[k]);
      assert periods[..k + 1] == periods[..k] + [periods[k]];
    }
    assert periods[..|periods|] == periods;
    return false;
  }

  /** The closure offset of the j-th date generated for one Eid: 5, 6, 7 days before, then 1..7 days after. */
  function ClosureOffset(j: nat): (o: int)
    requires j < 10
    ensures o != 0 && (-7 <= o <= -5 || 1 <= o <= 7)
  {
    if j < 3 then -(5 + j) else j - 2
  }

  /** calculate_closure_days: ten dates per Eid, appended in two inner loops. */
  method CalculateClosureDays(eids: seq<Day>) returns (closure: seq<Day>)
    ensures |closure| == 10 * |eids|
    ensures forall k, j :: 0 <= k < |eids| && 0 <= j < 10 ==> closure[10 * k + j] == eids[k] + ClosureOffset(j)
  {
    closure := [];
    for k := 0 to |eids|
      invariant |closure| == 10 * k
      invariant forall k', j :: 0 <= k' < k && 0 <= j < 10 ==> closure[10 * k' + j] == eids[k'] + ClosureOffset(j)
    {
      var eid := eids[k];
      for i := 5 to 8
        invariant |closure| == 10 * k + (i - 5)
        invariant forall k', j :: 0 <= k' < k && 0 <= j < 10 ==> closure[10 * k' + j] == eids[k'] + ClosureOffset(j)
        invariant forall j :: 0 <= j < i - 5 ==> closure[10 * k + j] == eid + ClosureOffset(j)
      {
        closure := closure + [eid - i];
      }
      for i := 1 to 8
        invariant |closure| == 10 * k + 3 + (i - 1)
        invariant forall k', j :: 0 <= k' < k && 0 <= j < 10 ==> closure[10 * k' + j] == eids[k'] + ClosureOffset(j)
        invariant forall j :: 0 <= j < 3 + (i - 1) ==> closure[10 * k + j] == eid + ClosureOffset(j)
      {
        closure := closure + [eid + i];
      }
    }
  }

  /** A day is a closure day exactly when it lies 5 to 7 days before or 1 to 7 days after some Eid. */
  predicate NearEidClosure(d: Day, eids: seq<Day>)
  {
    exists k :: 0 <= k < |eids| && (5 <= eids[k] - d <= 7 || 1 <= d - eids[k] <= 7)
  }

  lemma ClosureMembership(eids: seq<Day>, closure: seq<Day>, d: Day)
    requires |closure| == 10 * |eids|
    requires forall k, j :: 0 <= k < |eids| && 0 <= j < 10 ==> closure[10 * k + j] == eids[k] + ClosureOffset(j)
    ensures d in closure <==> NearEidClosure(d, eids)
  {
    if d in closure {
      var m :| 0 <= m < |closure| && closure[m] == d;
      var k, j := m / 10, m % 10;
      assert closure[10 * k + j] == eids[k] + ClosureOffset(j);
    }
    if NearEidClosure(d, eids) {
      var k :| 0 <= k < |eids| && (5 <= eids[k] - d <= 7 || 1 <= d - eids[k] <= 7);
      var j: nat := if d < eids[k] then eids[k] - d - 5 else d - eids[k] + 2;
      assert 0 <= j < 10 && eids[k] + ClosureOffset(j) == d;
      assert closure[10 * k + j] == d;
    }
  }

  /** pandas' `dayofweek + 1`: Monday is 1 and Sunday 7. */
  function DayOfWeekFromOne(d: Day): (w: int)
    ensures 1 <= w <= 7 && (w == 7 <==> DayOfWeek(d) == 6)
  {
    DayOfWeek(d) + 1
  }

  predicate IsSunday(d: Day)
  {
    DayOfWeekFromOne(d) == 7
  }

  /** The `is_closed` rule of preprocess_data. */
  predicate IsClosed(d: Day, ext: ExternalVariables, closures: set<Day>)
  {
    (IsSunday(d) && !InAnyPeriod(d, ext.ramadan)) || d in closures || d in ext.nationalHolidays
  }

  /** A Ramadan Sunday that is neither a closure day nor a holiday is a working day; any other Sunday is closed. */
  lemma SundayRule(d: Day, ext: ExternalVariables, closures: set<Day>)
    requires IsSunday(d)
    ensures d !in closures && d !in ext.nationalHolidays ==> (IsClosed(d, ext, closures) <==> !InAnyPeriod(d, ext.ramadan))
    ensures !InAnyPeriod(d, ext.ramadan) ==> IsClosed(d, ext, closures)
  {
  }

  /** A weekday outside the closure set and the holidays is open, Ramadan or not. */
  lemma WeekdaysOpen(d: Day, ext: ExternalVariables, closures: set<Day>)
    requires DayOfWeek(d) < 6 && d !in closures && d !in ext.nationalHolidays
    ensures !IsClosed(d, ext, closures)
  {
  }

  /** The Eid days themselves are never closure days of the pipeline's two lists. */
  lemma EidDaysAreOpen(ext: ExternalVariables, closure: seq<Day>, d: Day)
    requires ext.eidFitr == [18760, 19114, 19469, 19823, 20178]
    requires ext.eidAdha == [18819, 19183, 19537, 19882, 20245]
    requires |closure| == 10 * |ext.eidFitr + ext.eidAdha|
    requires forall k, j :: 0 <= k < |ext.eidFitr + ext.eidAdha| && 0 <= j < 10 ==>
      closure[10 * k + j] == (ext.eidFitr + ext.eidAdha)[k] + ClosureOffset(j)
    requires d in ext.eidFitr + ext.eidAdha
    ensures d !in closure
  {
    var eids := ext.eidFitr + ext.eidAdha;
    ClosureMembership(eids, closure, d);
    if NearEidClosure(d, eids) {
      var k :| 0 <= k < |eids| && (5 <= eids[k] - d <= 7 || 1 <= d - eids[k] <= 7);
      assert false;
    }
  }

  /** The closure list of the Fitr dates followed by that of the Adha dates is the closure list of both lists joined. */
  lemma ClosureOfJoinedLists(a: seq<Day>, b: seq<Day>, ca: seq<Day>, cb: seq<Day>)
    requires |ca| == 10 * |a| && forall k, j :: 0 <= k < |a| && 0 <= j < 10 ==> ca[10 * k + j] == a[k] + ClosureOffset(j)
    requires |cb| == 10 * |b| && forall k, j :: 0 <= k < |b| && 0 <= j < 10 ==> cb[10 * k + j] == b[k] + ClosureOffset(j)
    ensures |ca + cb| == 10 * |a + b|
    ensures forall k, j :: 0 <= k < |a + b| && 0 <= j < 10 ==> (ca + cb)[10 * k + j] == (a + b)[k] + ClosureOffset(j)
  {
    forall k, j | 0 <= k < |a + b| && 0 <= j < 10
      ensures (ca + cb)[10 * k + j] == (a + b)[k] + ClosureOffset(j)
    {
      if k >= |a| {
        assert 10 * k + j - |ca| == 10 * (k - |a|) + j;
      }
    }
  }
}
