/**
 * The pipeline's preprocess_data after aggregation
 * (backend/umkm_python_code.py): every product gets a row for every day
 * between the first and the last date of the data, zero-filled where
 * nothing was recorded, and every row gets the calendar flags, including
 * whether the shop was closed.
 */
module PipelinePreprocess {
  import opened Common
  import opened Series
  import opened Calendar
  import opened PipelineCalendar

  /** The aggregated columns of one (date, product). */
  datatype Values = Values(produced: int, sold: int, revenue: real, expense: real, price: real, unitCost: real)

  /** `reindex(..., fill_value=0)` fills every column of a new row with 0. */
  const Zero := Values(0, 0, 0.0, 0.0, 0.0, 0.0)

  datatype DayRow = DayRow(date: Day, product: string, values: Values)

  /** The values recorded for (d, p), the first match if any. */
  function Lookup(agg: seq<DayRow>, d: Day, p: string): Option<Values>
  {
    if agg == [] then None
    else if agg[0].date == d && agg[0].product == p then Some(agg[0].values)
    else Lookup(agg[1..], d, p)
  }

  /** Lookup finds a record exactly when one carries the key, and returns that record's values. */
  lemma {:induction false} LookupFinds(agg: seq<DayRow>, d: Day, p: string)
    ensures Lookup(agg, d, p).None? <==> forall i :: 0 <= i < |agg| ==> !(agg[i].date == d && agg[i].product == p)
    ensures Lookup(agg, d, p).Some? ==> exists i :: 0 <= i < |agg| && agg[i] == DayRow(d, p, Lookup(agg, d, p).value)
  {
    if agg != [] && !(agg[0].date == d && agg[0].product == p) {
      LookupFinds(agg[1..], d, p);
      assert forall i :: 1 <= i < |agg| ==> agg[i] == agg[1..][i - 1];
      var r := Lookup(agg, d, p);
      if r.Some? {
        var i :| 0 <= i < |agg[1..]| && agg[1..][i] == DayRow(d, p, r.value);
        assert agg[i + 1] == DayRow(d, p, r.value);
      }
    }
  }

  function ValuesAt(agg: seq<DayRow>, d: Day, p: string): Values
  {
    var r := Lookup(agg, d, p);
    if r.Some? then r.value else Zero
  }

  function DatesOf(agg: seq<DayRow>): (s: seq<Day>)
    ensures |s| == |agg| && forall i :: 0 <= i < |agg| ==> s[i] == agg[i].date
  {
    seq(|agg|, i requires 0 <= i < |agg| => agg[i].date)
  }

  function ProductsOf(agg: seq<DayRow>): (s: seq<string>)
    ensures |s| == |agg| && forall i :: 0 <= i < |agg| ==> s[i] == agg[i].product
  {
    seq(|agg|, i requires 0 <= i < |agg| => agg[i].product)
  }

  /** The rows of one day, one per product in the given order. */
  function Block(d: Day, products: seq<string>, agg: seq<DayRow>): (b: seq<DayRow>)
    ensures |b| == |products|
    ensures forall j :: 0 <= j < |products| ==> b[j] == DayRow(d, products[j], ValuesAt(agg, d, products[j]))
  {
    seq(|products|, j requires 0 <= j < |products| => DayRow(d, products[j], ValuesAt(agg, d, products[j])))
  }

  /** `MultiIndex.from_product([all_dates, products])` reindexed: date-major, products in the given order. */
  function Grid(lo: Day, days: nat, products: seq<string>, agg: seq<DayRow>): (g: seq<DayRow>)
    ensures |g| == days * |products|
  {
    if days == 0 then []
    else
      assert (days - 1) * |products| + |products| == days * |products|;
      Grid(lo, days - 1, products, agg) + Block(lo + days - 1, products, agg)
  }

  /**
   * The complete grid of the aggregated rows: every day from the first to
   * the last date, times every product in order of first appearance. An
   * empty frame has no date range and fails.
   */
  function CompleteGrid(agg: seq<DayRow>): (g: Option<seq<DayRow>>)
    ensures g.None? <==> agg == []
    ensures g.Some? ==> g.value == Grid(MinOf(DatesOf(agg)), MaxOf(DatesOf(agg)) - MinOf(DatesOf(agg)) + 1,
                                        Distinct(ProductsOf(agg)), agg)
  {
    if agg == [] then None
    else
      var lo, hi := MinOf(DatesOf(agg)), MaxOf(DatesOf(agg));
      assert DatesOf(agg)[0] in DatesOf(agg);
      Some(Grid(lo, hi - lo + 1, Distinct(ProductsOf(agg)), agg))
  }

  /** How many rows carry the key (d, p). */
  function Occurrences(rows: seq<DayRow>, d: Day, p: string): nat
  {
    if rows == [] then 0
    else Occurrences(rows[..|rows| - 1], d, p) + (if rows[|rows| - 1].date == d && rows[|rows| - 1].product == p then 1 else 0)
  }

  lemma {:induction false} OccurrencesConcat(a: seq<DayRow>, b: seq<DayRow>, d: Day, p: string)
    ensures Occurrences(a + b, d, p) == Occurrences(a, d, p) + Occurrences(b, d, p)
  {
    if b != [] {
      OccurrencesConcat(a, b[..|b| - 1], d, p);
      assert (a + b)[..|a + b| - 1] == a + b[..|b| - 1];
    } else {
      assert a + b == a;
    }
  }

  lemma {:induction false} OccurrencesInBlock(day: Day, products: seq<string>, agg: seq<DayRow>, d: Day, p: string)
    requires NoDuplicates(products)
    ensures Occurrences(Block(day, products, agg), d, p) == if d == day && p in products then 1 else 0
  {
    if products != [] {
      var n := |products| - 1;
      assert Block(day, products, agg)[..n] == Block(day, products[..n], agg);
      OccurrencesInBlock(day, products[..n], agg, d, p);
      assert forall x :: x in products <==> x in products[..n] || x == products[n];
      if p == products[n] {
        assert p !in products[..n];
      }
    }
  }

  lemma LastDaySplit(earlier: nat, last: nat, lo: int, days: nat, d: int, listed: bool)
    requires days > 0
    requires earlier == if lo <= d < lo + (days - 1) && listed then 1 else 0
    requires last == if d == lo + days - 1 && listed then 1 else 0
    ensures earlier + last == if lo <= d < lo + days && listed then 1 else 0
  {
  }

  /** After completion each (date, product) of the range appears exactly once, and no other pair appears. */
  lemma {:induction false} GridHasEachPairOnce(lo: Day, days: nat, products: seq<string>, agg: seq<DayRow>, d: Day, p: string)
    requires NoDuplicates(products)
    ensures Occurrences(Grid(lo, days, products, agg), d, p) == if lo <= d < lo + days && p in products then 1 else 0
  {
    if days > 0 {
      var before, last := Grid(lo, days - 1, products, agg), Block(lo + days - 1, products, agg);
      var earlier, final := Occurrences(before, d, p), Occurrences(last, d, p);
      assert Occurrences(Grid(lo, days, products, agg), d, p) == earlier + final by {
        assert Grid(lo, days, products, agg) == before + last;
        OccurrencesConcat(before, last, d, p);
      }
      var listed := p in products;
      assert earlier == if lo <= d < lo + (days - 1) && listed then 1 else 0 by {
        GridHasEachPairOnce(lo, days - 1, products, agg, d, p);
      }
      assert final == if d == lo + days - 1 && listed then 1 else 0 by {
        OccurrencesInBlock(lo + days - 1, products, agg, d, p);
      }
      LastDaySplit(earlier, final, lo, days, d, listed);
    } else {
      assert Grid(lo, days, products, agg) == [];
    }
  }

  /** Every grid row lies in the range, belongs to a listed product and carries the values of its key. */
  lemma {:induction false} GridRowsInRange(lo: Day, days: nat, products: seq<string>, agg: seq<DayRow>)
    ensures forall r :: r in Grid(lo, days, products, agg) ==>
      lo <= r.date < lo + days && r.product in products && r.values == ValuesAt(agg, r.date, r.product)
  {
    if days > 0 {
      GridRowsInRange(lo, days - 1, products, agg);
      var before, last := Grid(lo, days - 1, products, agg), Block(lo + days - 1, products, agg);
      assert Grid(lo, days, products, agg) == before + last;
      forall r | r in last
        ensures r.date == lo + days - 1 && r.product in products && r.values == ValuesAt(agg, r.date, r.product)
      {
        var j :| 0 <= j < |last| && last[j] == r;
      }
    }
  }

  /** A recorded (date, product) keeps its values; one with no record is all zeros. */
  lemma GridValues(agg: seq<DayRow>, d: Day, p: string)
    requires forall i, j :: 0 <= i < j < |agg| ==> !(agg[i].date == agg[j].date && agg[i].product == agg[j].product)
    ensures forall i :: 0 <= i < |agg| && agg[i].date == d && agg[i].product == p ==> ValuesAt(agg, d, p) == agg[i].values
    ensures (forall i :: 0 <= i < |agg| ==> !(agg[i].date == d && agg[i].product == p)) ==> ValuesAt(agg, d, p) == Zero
  {
    LookupFinds(agg, d, p);
    var r := Lookup(agg, d, p);
    if r.Some? {
      var i :| 0 <= i < |agg| && agg[i] == DayRow(d, p, r.value);
      forall i' | 0 <= i' < |agg| && agg[i'].date == d && agg[i'].product == p ensures r.value == agg[i'].values {
        assert i' == i;
      }
    }
  }

  /** The external-variable columns of one grid row. */
  datatype DayFlags = DayFlags(
    dayOfWeek: int, isRamadan: bool, isEidFitr: bool, isEidAdha: bool,
    isNationalHoliday: bool, isSunday: bool, isClosed: bool)

  /** The closure rule stated on the calendar inputs alone. */
  predicate ClosedDay(d: Day, ext: ExternalVariables)
  {
    (IsSunday(d) && !InAnyPeriod(d, ext.ramadan)) || NearEidClosure(d, ext.eidFitr + ext.eidAdha)
      || d in ext.nationalHolidays
  }

  /** The flags the day-by-day pass produces for a date. */
  function FlagsOf(d: Day, ext: ExternalVariables): (f: DayFlags)
    ensures f.isSunday <==> f.dayOfWeek == 7
    ensures f.isClosed <==> ClosedDay(d, ext)
  {
    DayFlags(DayOfWeekFromOne(d), InAnyPeriod(d, ext.ramadan), d in ext.eidFitr, d in ext.eidAdha,
             d in ext.nationalHolidays, IsSunday(d), ClosedDay(d, ext))
  }

  /** preprocess_data's external variables: the closure dates once, then each row in turn. */
  method AddExternalVariables(grid: seq<DayRow>, ext: ExternalVariables) returns (flags: seq<DayFlags>)
    ensures |flags| == |grid|
    ensures forall i :: 0 <= i < |grid| ==> flags[i] == FlagsOf(grid[i].date, ext)
  {
    var fitr := CalculateClosureDays(ext.eidFitr);
    var adha := CalculateClosureDays(ext.eidAdha);
    ClosureOfJoinedLists(ext.eidFitr, ext.eidAdha, fitr, adha);
    var closures := set d | d in fitr + adha;
    flags := [];
    for i := 0 to |grid|
      invariant |flags| == i
      invariant forall i' :: 0 <= i' < i ==> flags[i'] == FlagsOf(grid[i'].date, ext)
    {
      var d := grid[i].date;
      var ramadan := IsInRamadan(d, ext.ramadan);
      var holiday := d in ext.nationalHolidays;
      var sunday := DayOfWeekFromOne(d) == 7;
      ClosureMembership(ext.eidFitr + ext.eidAdha, fitr + adha, d);
      assert IsClosed(d, ext, closures) <==> ClosedDay(d, ext);
      flags := flags + [DayFlags(DayOfWeekFromOne(d), ramadan, d in ext.eidFitr, d in ext.eidAdha,
                                 holiday, sunday, (sunday && !ramadan) || d in closures || holiday)];
    }
  }
}
