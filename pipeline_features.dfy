/**
 * The pipeline's create_features (backend/umkm_python_code.py): the
 * completed frame is sorted by product and date, then for each product
 * the lag and shifted-rolling columns are assigned to that product's
 * rows (`df.loc[mask, col] = ...`), and finally every lag and rolling
 * column has its missing values replaced by 0.
 */
module PipelineFeatures {
  import opened Common
  import opened Series
  import opened Sorting
  import opened Calendar
  import opened PipelinePreprocess

  /** `df[df['product_name'] == p]`: the product's rows, order kept. */
  function RowsOf(rows: seq<DayRow>, p: string): seq<DayRow>
  {
    if rows == [] then []
    else
      var n := |rows| - 1;
      if rows[n].product == p then RowsOf(rows[..n], p) + [rows[n]] else RowsOf(rows[..n], p)
  }

  lemma {:induction false} RowsOfConcat(a: seq<DayRow>, b: seq<DayRow>, p: string)
    ensures RowsOf(a + b, p) == RowsOf(a, p) + RowsOf(b, p)
  {
    if b == [] {
      assert a + b == a;
    } else {
      var n, c := |b| - 1, a + b;
      RowsOfConcat(a, b[..n], p);
      assert c[..|c| - 1] == a + b[..n] && c[|c| - 1] == b[n];
    }
  }

  lemma {:induction false} RowsOfCount(rows: seq<DayRow>, p: string, x: DayRow)
    ensures multiset(RowsOf(rows, p))[x] == if x.product == p then multiset(rows)[x] else 0
  {
    if rows != [] {
      var n := |rows| - 1;
      RowsOfCount(rows[..n], p, x);
      assert rows == rows[..n] + [rows[n]];
    }
  }

  /** The mask keeps exactly the product's rows. */
  lemma RowsOfMembers(rows: seq<DayRow>, p: string)
    ensures forall x :: x in RowsOf(rows, p) <==> x in rows && x.product == p
  {
    forall x ensures x in RowsOf(rows, p) <==> x in rows && x.product == p {
      RowsOfCount(rows, p, x);
      assert x in RowsOf(rows, p) <==> x in multiset(RowsOf(rows, p));
    }
  }

  lemma {:induction false} RowsOfAbsent(rows: seq<DayRow>, p: string)
    requires p !in ProductsOf(rows)
    ensures RowsOf(rows, p) == []
  {
    if rows != [] {
      var n := |rows| - 1;
      assert ProductsOf(rows)[n] == rows[n].product;
      assert forall i :: 0 <= i < n ==> ProductsOf(rows[..n])[i] == ProductsOf(rows)[i];
      RowsOfAbsent(rows[..n], p);
    }
  }

  /** Filtering rows that all belong to product q keeps them all or none. */
  lemma {:induction false} RowsOfUniform(s: seq<DayRow>, q: string, p: string)
    requires forall x :: x in s ==> x.product == q
    ensures RowsOf(s, p) == if q == p then s else []
  {
    if s != [] {
      var n := |s| - 1;
      assert forall x :: x in s[..n] ==> x in s;
      RowsOfUniform(s[..n], q, p);
      assert s[n] in s;
      assert s[..n] + [s[n]] == s;
    }
  }

  function DateKey(r: DayRow): real
  {
    r.date as real
  }

  /** One product's rows in date order (rows with the same date keep their order). */
  function ProductBlock(rows: seq<DayRow>, p: string): seq<DayRow>
  {
    SortBy(RowsOf(rows, p), DateKey)
  }

  lemma ProductBlockCorrect(rows: seq<DayRow>, p: string)
    ensures multiset(ProductBlock(rows, p)) == multiset(RowsOf(rows, p))
    ensures SortedBy(ProductBlock(rows, p), DateKey)
    ensures forall x :: x in ProductBlock(rows, p) ==> x in rows && x.product == p
  {
    SortByCorrect(RowsOf(rows, p), DateKey);
    RowsOfMembers(rows, p);
    forall x | x in ProductBlock(rows, p) ensures x in rows && x.product == p {
      assert x in multiset(ProductBlock(rows, p));
    }
  }

  /** The blocks of `products`, one after another. */
  function Blocks(products: seq<string>, rows: seq<DayRow>): seq<DayRow>
  {
    if products == [] then []
    else Blocks(products[..|products| - 1], rows) + ProductBlock(rows, products[|products| - 1])
  }

  /** `sort_values(['product_name', 'date'])`: by product name, then by date. */
  function SortByProductDate(rows: seq<DayRow>): seq<DayRow>
  {
    Blocks(SortedUnique(ProductsOf(rows)), rows)
  }

  /** Ordered by product name first and by date among the rows of one product. */
  predicate ProductDateOrdered(s: seq<DayRow>)
  {
    forall i, j :: 0 <= i < j < |s| ==>
      LexLess(s[i].product, s[j].product) || (s[i].product == s[j].product && s[i].date <= s[j].date)
  }

  lemma StrictlySortedNoDuplicates(s: seq<string>)
    requires StrictlySorted(s)
    ensures NoDuplicates(s)
  {
    forall i, j | 0 <= i < j < |s| ensures s[i] != s[j] {
      LexLessIrreflexive(s[i]);
    }
  }

  /** Appending a date-ordered block of a product named after every earlier one keeps the order. */
  lemma OrderedConcat(init: seq<DayRow>, last: seq<DayRow>, q: string, earlier: seq<string>)
    requires ProductDateOrdered(init) && forall x :: x in init ==> x.product in earlier
    requires forall e :: e in earlier ==> LexLess(e, q)
    requires SortedBy(last, DateKey) && forall x :: x in last ==> x.product == q
    ensures ProductDateOrdered(init + last)
  {
    var c := init + last;
    forall i, j | 0 <= i < j < |c|
      ensures LexLess(c[i].product, c[j].product) || (c[i].product == c[j].product && c[i].date <= c[j].date)
    {
      if j < |init| {
        assert c[i] == init[i] && c[j] == init[j];
      } else if i >= |init| {
        assert c[i] == last[i - |init|] && c[j] == last[j - |init|];
        assert last[i - |init|] in last && last[j - |init|] in last;
      } else {
        assert c[i] == init[i] && init[i] in init;
        assert c[j] == last[j - |init|] && last[j - |init|] in last;
      }
    }
  }

  lemma {:induction false} BlocksOrdered(products: seq<string>, rows: seq<DayRow>)
    requires StrictlySorted(products)
    ensures forall x :: x in Blocks(products, rows) ==> x.product in products
    ensures ProductDateOrdered(Blocks(products, rows))
  {
    if products != [] {
      var n := |products| - 1;
      var init, last := Blocks(products[..n], rows), ProductBlock(rows, products[n]);
      BlocksOrdered(products[..n], rows);
      ProductBlockCorrect(rows, products[n]);
      assert Blocks(products, rows) == init + last;
      forall e | e in products[..n] ensures LexLess(e, products[n]) {
        var k :| 0 <= k < n && products[..n][k] == e;
        assert products[k] == e;
      }
      OrderedConcat(init, last, products[n], products[..n]);
      assert forall q :: q in products[..n] ==> q in products;
    }
  }

  lemma {:induction false} BlocksCount(products: seq<string>, rows: seq<DayRow>, x: DayRow)
    requires NoDuplicates(products)
    ensures multiset(Blocks(products, rows))[x] == if x.product in products then multiset(rows)[x] else 0
  {
    if products != [] {
      var n := |products| - 1;
      assert NoDuplicates(products[..n]) by {
        forall i, j | 0 <= i < j < n ensures products[..n][i] != products[..n][j] {
          assert products[..n][i] == products[i] && products[..n][j] == products[j];
        }
      }
      BlocksCount(products[..n], rows, x);
      ProductBlockCorrect(rows, products[n]);
      RowsOfCount(rows, products[n], x);
      assert forall q :: q in products <==> q in products[..n] || q == products[n];
      if x.product == products[n] {
        assert x.product !in products[..n];
      }
    }
  }

  /** The sorted frame holds exactly the input rows, ordered by product and then date. */
  lemma SortByProductDateCorrect(rows: seq<DayRow>)
    ensures multiset(SortByProductDate(rows)) == multiset(rows)
    ensures |SortByProductDate(rows)| == |rows|
    ensures ProductDateOrdered(SortByProductDate(rows))
  {
    var products := SortedUnique(ProductsOf(rows));
    SortedUniqueCorrect(ProductsOf(rows));
    StrictlySortedNoDuplicates(products);
    BlocksOrdered(products, rows);
    forall x ensures multiset(SortByProductDate(rows))[x] == multiset(rows)[x] {
      BlocksCount(products, rows, x);
      if x in rows {
        var i :| 0 <= i < |rows| && rows[i] == x;
        assert ProductsOf(rows)[i] == x.product;
      }
    }
    assert multiset(SortByProductDate(rows)) == multiset(rows);
    assert |multiset(SortByProductDate(rows))| == |multiset(rows)|;
  }

  lemma {:induction false} BlocksMask(products: seq<string>, rows: seq<DayRow>, p: string)
    requires NoDuplicates(products)
    ensures RowsOf(Blocks(products, rows), p) == if p in products then ProductBlock(rows, p) else []
  {
    if products != [] {
      var n := |products| - 1;
      assert NoDuplicates(products[..n]) by {
        forall i, j | 0 <= i < j < n ensures products[..n][i] != products[..n][j] {
          assert products[..n][i] == products[i] && products[..n][j] == products[j];
        }
      }
      BlocksMask(products[..n], rows, p);
      var init, last := Blocks(products[..n], rows), ProductBlock(rows, products[n]);
      assert Blocks(products, rows) == init + last;
      RowsOfConcat(init, last, p);
      ProductBlockCorrect(rows, products[n]);
      RowsOfUniform(last, products[n], p);
      assert p in products <==> p in products[..n] || p == products[n];
      if p == products[n] {
        assert p !in products[..n];
        assert RowsOf(init, p) == [] && RowsOf(last, p) == last;
        assert RowsOf(init, p) + RowsOf(last, p) == last;
      } else {
        assert RowsOf(last, p) == [];
        assert RowsOf(init, p) + RowsOf(last, p) == RowsOf(init, p);
      }
    }
  }

  /** A product's mask on the sorted frame selects exactly that product's rows, in date order. */
  lemma MaskIsProductBlock(rows: seq<DayRow>, p: string)
    ensures RowsOf(SortByProductDate(rows), p) == ProductBlock(rows, p)
  {
    var products := SortedUnique(ProductsOf(rows));
    SortedUniqueCorrect(ProductsOf(rows));
    StrictlySortedNoDuplicates(products);
    BlocksMask(products, rows, p);
    if p !in products {
      RowsOfAbsent(rows, p);
    }
  }

  /** The position of row i within its product's series: how many of the product's rows precede it. */
  function Rank(df: seq<DayRow>, i: nat): nat
    requires i < |df|
  {
    |RowsOf(df[..i], df[i].product)|
  }

  lemma RankInMask(df: seq<DayRow>, i: nat)
    requires i < |df|
    ensures Rank(df, i) < |RowsOf(df, df[i].product)|
    ensures RowsOf(df, df[i].product)[Rank(df, i)] == df[i]
  {
    var p := df[i].product;
    assert df == (df[..i] + [df[i]]) + df[i + 1..];
    RowsOfConcat(df[..i] + [df[i]], df[i + 1..], p);
    RowsOfConcat(df[..i], [df[i]], p);
    assert [df[i]][..0] == [];
  }

  function SoldOf(s: seq<DayRow>): (r: seq<int>)
    ensures |r| == |s| && forall i :: 0 <= i < |s| ==> r[i] == s[i].values.sold
  {
    seq(|s|, i requires 0 <= i < |s| => s[i].values.sold)
  }

  function ProducedOf(s: seq<DayRow>): (r: seq<int>)
    ensures |r| == |s| && forall i :: 0 <= i < |s| ==> r[i] == s[i].values.produced
  {
    seq(|s|, i requires 0 <= i < |s| => s[i].values.produced)
  }

  /** The lag and rolling columns of one row before `fillna`; None is NaN. */
  datatype LagCols = LagCols(
    soldLag1: Option<int>, soldLag7: Option<int>, soldLag14: Option<int>,
    producedLag1: Option<int>, producedLag7: Option<int>,
    rollingMean7: Option<real>, rollingMean14: Option<real>)

  /** A row the loop has not assigned yet: every column NaN. */
  const Unassigned := LagCols(None, None, None, None, None, None, None)

  /** What the masked assignments give position r of a product's series. */
  function ColsAt(series: seq<DayRow>, r: nat): LagCols
    requires r < |series|
  {
    var sold, produced := SoldOf(series), ProducedOf(series);
    LagCols(Lag(sold, 1, r), Lag(sold, 7, r), Lag(sold, 14, r), Lag(produced, 1, r), Lag(produced, 7, r),
            RollingMean(sold, 7, r), RollingMean(sold, 14, r))
  }

  /** The columns assigned to row i of the sorted frame by its product's pass. */
  function ColsOfRow(df: seq<DayRow>, i: nat): LagCols
    requires i < |df|
  {
    RankInMask(df, i);
    ColsAt(RowsOf(df, df[i].product), Rank(df, i))
  }

  /** A row of the feature frame (the ISO week and the rolling std are not modelled). */
  datatype FeatureRow = FeatureRow(
    row: DayRow, day: int, month: int, quarter: int,
    soldLag1: int, soldLag7: int, soldLag14: int, producedLag1: int, producedLag7: int,
    rollingMean7: real, rollingMean14: real)

  /** The time features of the row and its lag columns after `fillna(0)`. */
  function Filled(row: DayRow, c: LagCols): FeatureRow
  {
    var civil := CivilFromDays(row.date);
    FeatureRow(row, civil.day, civil.month, (civil.month - 1) / 3 + 1,
               OrZero(c.soldLag1), OrZero(c.soldLag7), OrZero(c.soldLag14),
               OrZero(c.producedLag1), OrZero(c.producedLag7),
               OrZeroReal(c.rollingMean7), OrZeroReal(c.rollingMean14))
  }

  /**
   * One pass of the loop: `df.loc[mask, col] = ...` writes the masked
   * series' columns to the rows of product p and leaves the others alone.
   */
  method AssignProduct(df: seq<DayRow>, cols: seq<LagCols>, p: string, done: seq<string>) returns (next: seq<LagCols>)
    requires |cols| == |df|
    requires forall j :: 0 <= j < |df| ==> cols[j] == if df[j].product in done then ColsOfRow(df, j) else Unassigned
    ensures |next| == |df|
    ensures forall j :: 0 <= j < |df| ==>
      next[j] == if df[j].product in done || df[j].product == p then ColsOfRow(df, j) else Unassigned
  {
    var masked := RowsOf(df, p);
    var r := 0;
    next := cols;
    for i := 0 to |df|
      invariant |next| == |df|
      invariant r == |RowsOf(df[..i], p)|
      invariant forall j :: 0 <= j < |df| ==>
        next[j] == if df[j].product in done || (j < i && df[j].product == p) then ColsOfRow(df, j) else Unassigned
    {
      assert df[..i + 1] == df[..i] + [df[i]];
      RowsOfConcat(df[..i], [df[i]], p);
      assert [df[i]][..0] == [];
      if df[i].product == p {
        RankInMask(df, i);
        next := next[i := ColsAt(masked, r)];
        r := r + 1;
      }
    }
  }

  /**
   * create_features: sort, then for each product of the sorted frame
   * assign its rows' lag columns from the masked series, then fill.
   */
  method CreateFeatures(rows: seq<DayRow>) returns (out: seq<FeatureRow>)
    ensures |out| == |SortByProductDate(rows)|
    ensures forall i :: 0 <= i < |out| ==>
      out[i] == Filled(SortByProductDate(rows)[i], ColsOfRow(SortByProductDate(rows), i))
  {
    var df := SortByProductDate(rows);
    var products := Distinct(ProductsOf(df));
    var cols := seq(|df|, j => Unassigned);
    for k := 0 to |products|
      invariant |cols| == |df|
      invariant forall j :: 0 <= j < |df| ==>
        cols[j] == if df[j].product in products[..k] then ColsOfRow(df, j) else Unassigned
    {
      cols := AssignProduct(df, cols, products[k], products[..k]);
      assert forall q :: q in products[..k + 1] <==> q in products[..k] || q == products[k];
    }
    assert products[..|products|] == products;
    forall j | 0 <= j < |df| ensures df[j].product in products {
      assert ProductsOf(df)[j] == df[j].product;
    }
    out := seq(|df|, i requires 0 <= i < |df| => Filled(df[i], cols[i]));
  }

  /**
   * Row i of the sorted frame is row r of its product's date-ordered
   * series, and each lag column holds that series' value k rows back, or
   * 0 on the product's first k rows.
   */
  lemma LagFeatures(rows: seq<DayRow>, i: nat)
    requires i < |SortByProductDate(rows)|
    ensures var df := SortByProductDate(rows);
      var b, r, f := ProductBlock(rows, df[i].product), Rank(df, i), Filled(df[i], ColsOfRow(df, i));
      r < |b| && b[r] == df[i]
      && f.soldLag1 == (if r >= 1 then b[r - 1].values.sold else 0)
      && f.soldLag7 == (if r >= 7 then b[r - 7].values.sold else 0)
      && f.soldLag14 == (if r >= 14 then b[r - 14].values.sold else 0)
      && f.producedLag1 == (if r >= 1 then b[r - 1].values.produced else 0)
      && f.producedLag7 == (if r >= 7 then b[r - 7].values.produced else 0)
  {
    var df := SortByProductDate(rows);
    MaskIsProductBlock(rows, df[i].product);
    RankInMask(df, i);
  }

  lemma PastWindowOfRows(b: seq<DayRow>, w: nat, r: nat)
    requires r <= |b|
    ensures PastWindow(SoldOf(b), w, r) == SoldOf(b[r - Min(r, w)..r])
  {
    var x, y := PastWindow(SoldOf(b), w, r), SoldOf(b[r - Min(r, w)..r]);
    assert |x| == |y|;
    forall j | 0 <= j < |x| ensures x[j] == y[j] {
      assert b[r - Min(r, w)..r][j] == b[r - Min(r, w) + j];
    }
  }

  /**
   * Row i of df is row r of the series b, and its rolling means average the
   * series' sales on the (at most) 7 and 14 rows before it, never the row
   * itself; the series' first row gets 0.
   */
  ghost predicate RollingMeansFrom(df: seq<DayRow>, b: seq<DayRow>, i: nat)
    requires i < |df|
  {
    var r, f := Rank(df, i), Filled(df[i], ColsOfRow(df, i));
    r < |b| && b[r] == df[i]
    && (r == 0 ==> f.rollingMean7 == 0.0 && f.rollingMean14 == 0.0)
    && (r > 0 ==> f.rollingMean7 == Mean(SoldOf(b[r - Min(r, 7)..r])))
    && (r > 0 ==> f.rollingMean14 == Mean(SoldOf(b[r - Min(r, 14)..r])))
  }

  /**
   * The rolling means of row i of the sorted frame average its product's
   * sales on the (at most) 7 and 14 rows before it in date order.
   */
  lemma RollingFeatures(rows: seq<DayRow>, i: nat)
    requires i < |SortByProductDate(rows)|
    ensures var df := SortByProductDate(rows);
      RollingMeansFrom(df, ProductBlock(rows, df[i].product), i)
  {
    var df := SortByProductDate(rows);
    MaskIsProductBlock(rows, df[i].product);
    RollingInFrame(df, ProductBlock(rows, df[i].product), i);
  }

  /** RollingFeatures for any frame whose rows of df[i]'s product form the series b. */
  lemma RollingInFrame(df: seq<DayRow>, b: seq<DayRow>, i: nat)
    requires i < |df| && RowsOf(df, df[i].product) == b
    ensures RollingMeansFrom(df, b, i)
  {
    RankInMask(df, i);
    assert ColsOfRow(df, i) == ColsAt(b, Rank(df, i));
    RollingAt(b, Rank(df, i), df[i]);
  }

  /** The rolling means position r of a series gets, after `fillna(0)`. */
  lemma RollingAt(b: seq<DayRow>, r: nat, row: DayRow)
    requires r < |b|
    ensures var f := Filled(row, ColsAt(b, r));
      && (r == 0 ==> f.rollingMean7 == 0.0 && f.rollingMean14 == 0.0)
      && (r > 0 ==> f.rollingMean7 == Mean(SoldOf(b[r - Min(r, 7)..r])))
      && (r > 0 ==> f.rollingMean14 == Mean(SoldOf(b[r - Min(r, 14)..r])))
  {
    var c := ColsAt(b, r);
    assert c.rollingMean7 == RollingMean(SoldOf(b), 7, r) && c.rollingMean14 == RollingMean(SoldOf(b), 14, r);
    RollingWindow(b, r, 7);
    RollingWindow(b, r, 14);
  }

  /** One rolling mean after `fillna(0)`: the mean of the (at most) w rows before r, or 0 at the first row. */
  lemma RollingWindow(b: seq<DayRow>, r: nat, w: nat)
    requires r < |b| && w > 0
    ensures OrZeroReal(RollingMean(SoldOf(b), w, r)) == if r == 0 then 0.0 else Mean(SoldOf(b[r - Min(r, w)..r]))
  {
    PastWindowOfRows(b, w, r);
  }
}
