/**
 * The backend's per-product lag features (backend/main.py,
 * create_lag_features_per_product and its inner add_lags). Each part of
 * the split gets its features from the product's history up to and
 * including that part: training rows from training alone, validation
 * rows from training plus validation, test rows from everything. The
 * pipeline is modelled as written, with `sold_trend = series.diff(7)`;
 * CausalAddLags is the corrected add_lags, whose trend is shifted like
 * every other feature.
 */
module BackendFeatures {
  import opened Common
  import opened Series
  import opened Sorting

  /** The `shift` distances of `sold_lag1` .. `sold_lag28`. */
  const LagSteps: seq<nat> := [1, 2, 3, 7, 14, 21, 28]

  /** The windows of the shifted rolling mean, maximum and minimum. */
  const Windows: seq<nat> := [7, 14, 28]

  /** The features of one row (rolling std and the exponential means are not modelled). */
  datatype LagRow = LagRow(
    lags: seq<Option<int>>, means: seq<Option<real>>,
    maxima: seq<Option<int>>, minima: seq<Option<int>>, trend: Option<int>)

  function Features(s: seq<int>, i: nat, trend: Option<int>): LagRow
    requires i < |s|
  {
    LagRow(seq(|LagSteps|, k requires 0 <= k < |LagSteps| => Lag(s, LagSteps[k], i)),
           seq(|Windows|, k requires 0 <= k < |Windows| => RollingMean(s, Windows[k], i)),
           seq(|Windows|, k requires 0 <= k < |Windows| => RollingMax(s, Windows[k], i)),
           seq(|Windows|, k requires 0 <= k < |Windows| => RollingMin(s, Windows[k], i)),
           trend)
  }

  /** add_lags as written: `sold_trend` is `series.diff(7)`, which reads the row's own `sold`. */
  function LagsAtAsWritten(s: seq<int>, i: nat): (r: LagRow)
    requires i < |s|
    ensures |r.lags| == |LagSteps| && forall k :: 0 <= k < |LagSteps| ==> r.lags[k] == Lag(s, LagSteps[k], i)
    ensures |r.means| == |r.maxima| == |r.minima| == |Windows|
    ensures forall k :: 0 <= k < |Windows| ==>
      r.means[k] == RollingMean(s, Windows[k], i) && r.maxima[k] == RollingMax(s, Windows[k], i)
      && r.minima[k] == RollingMin(s, Windows[k], i)
    ensures r.trend.Some? <==> i >= 7
    ensures r.trend.Some? ==> r.trend.value == s[i] - s[i - 7]
  {
    Features(s, i, Difference(s, 7, i))
  }

  /** `series.shift(1).diff(7)`: the weekly change up to the previous row. */
  function CausalTrend(s: seq<int>, i: nat): (r: Option<int>)
    requires i < |s|
    ensures i >= 1 ==> r == Difference(s, 7, i - 1)
    ensures i < 8 <==> r.None?
  {
    if i >= 8 then Some(s[i - 1] - s[i - 8]) else None
  }

  /** add_lags with the trend taken over the shifted series, like every other feature. */
  function LagsAt(s: seq<int>, i: nat): (r: LagRow)
    requires i < |s|
    ensures r == LagsAtAsWritten(s, i).(trend := r.trend)
    ensures i >= 1 ==> r.trend == LagsAtAsWritten(s, i - 1).trend
    ensures i == 0 ==> r.trend.None?
  {
    Features(s, i, CausalTrend(s, i))
  }

  /** `sold_lag{k}` is the value k rows back, and missing exactly on the first k rows. */
  lemma LagColumns(s: seq<int>, i: nat, k: nat)
    requires i < |s| && k < |LagSteps|
    ensures LagsAt(s, i).lags[k].Some? <==> i >= LagSteps[k]
    ensures i >= LagSteps[k] ==> LagsAt(s, i).lags[k].value == s[i - LagSteps[k]]
  {
  }

  /** Every feature of the corrected row i is a function of the rows before i alone. */
  lemma LagsAtIsCausal(s: seq<int>, t: seq<int>, i: nat)
    requires i < |s| && i < |t| && s[..i] == t[..i]
    ensures LagsAt(s, i) == LagsAt(t, i)
  {
    var a, b := LagsAt(s, i), LagsAt(t, i);
    forall k | 0 <= k < |LagSteps| ensures a.lags[k] == b.lags[k] {
      if i >= LagSteps[k] {
        assert s[..i][i - LagSteps[k]] == t[..i][i - LagSteps[k]];
      }
    }
    forall k | 0 <= k < |Windows|
      ensures a.means[k] == b.means[k] && a.maxima[k] == b.maxima[k] && a.minima[k] == b.minima[k]
    {
      RollingIsCausal(s, t, Windows[k], i);
    }
    if i >= 8 {
      assert s[..i][i - 1] == t[..i][i - 1] && s[..i][i - 8] == t[..i][i - 8];
    }
    assert a.lags == b.lags && a.means == b.means && a.maxima == b.maxima && a.minima == b.minima;
  }

  /** As written, two series that agree before row 7 get different features there: the trend sees the row's own sales. */
  lemma TrendLeaksTarget()
    ensures var s, t := [0, 0, 0, 0, 0, 0, 0, 0], [0, 0, 0, 0, 0, 0, 0, 5];
      s[..7] == t[..7] && LagsAtAsWritten(s, 7).trend == Some(0) && LagsAtAsWritten(t, 7).trend == Some(5)
  {
  }

  /** One aggregated daily row of one product (other columns play no part here). */
  datatype DailyRow = DailyRow(date: int, product: string, sold: int)

  datatype LaggedRow = LaggedRow(row: DailyRow, features: LagRow)

  function DateOf(r: DailyRow): real
  {
    r.date as real
  }

  /** `sort_values('date')`, with ties kept in input order. */
  function ByDate(rows: seq<DailyRow>): (r: seq<DailyRow>)
    ensures |r| == |rows| && multiset(r) == multiset(rows) && SortedBy(r, DateOf)
  {
    SortByCorrect(rows, DateOf);
    SortBy(rows, DateOf)
  }

  function SoldOf(rows: seq<DailyRow>): (s: seq<int>)
    ensures |s| == |rows| && forall i :: 0 <= i < |rows| ==> s[i] == rows[i].sold
  {
    seq(|rows|, i requires 0 <= i < |rows| => rows[i].sold)
  }

  /** add_lags over a product's rows, in the order given, as written: the trend is `diff(7)` of the row's own sales. */
  function AddLags(rows: seq<DailyRow>): (r: seq<LaggedRow>)
    ensures |r| == |rows|
    ensures forall i :: 0 <= i < |rows| ==> r[i].row == rows[i] && r[i].features == LagsAtAsWritten(SoldOf(rows), i)
  {
    seq(|rows|, i requires 0 <= i < |rows| => LaggedRow(rows[i], LagsAtAsWritten(SoldOf(rows), i)))
  }

  /** The corrected add_lags: every feature, the trend included, is taken over the shifted series. */
  function CausalAddLags(rows: seq<DailyRow>): (r: seq<LaggedRow>)
    ensures |r| == |rows|
    ensures forall i :: 0 <= i < |rows| ==> r[i].row == rows[i] && r[i].features == LagsAt(SoldOf(rows), i)
  {
    seq(|rows|, i requires 0 <= i < |rows| => LaggedRow(rows[i], LagsAt(SoldOf(rows), i)))
  }

  function RowsOfLagged(rows: seq<LaggedRow>): (r: seq<DailyRow>)
    ensures |r| == |rows| && forall i :: 0 <= i < |rows| ==> r[i] == rows[i].row
  {
    seq(|rows|, i requires 0 <= i < |rows| => rows[i].row)
  }

  /** `df[df['product_name'] == p]`, order kept. */
  function RowsOf(rows: seq<DailyRow>, p: string): (r: seq<DailyRow>)
    ensures forall x :: x in r <==> x in rows && x.product == p
  {
    if rows == [] then []
    else
      var n := |rows| - 1;
      var head := RowsOf(rows[..n], p);
      assert forall x :: x in rows <==> x in rows[..n] || x == rows[n];
      if rows[n].product == p then head + [rows[n]] else head
  }

  function ProductsOf(rows: seq<DailyRow>): (r: seq<string>)
    ensures |r| == |rows| && forall i :: 0 <= i < |rows| ==> r[i] == rows[i].product
  {
    seq(|rows|, i requires 0 <= i < |rows| => rows[i].product)
  }

  datatype Parts = Parts(train: seq<LaggedRow>, val: seq<LaggedRow>, test: seq<LaggedRow>)

  /** The body of the per-product loop for product p. */
  function ProductLagged(p: string, train: seq<DailyRow>, val: seq<DailyRow>, test: seq<DailyRow>): Parts
  {
    LaggedParts(ByDate(RowsOf(train, p)), ByDate(RowsOf(val, p)), ByDate(RowsOf(test, p)))
  }

  /** The lagged parts of one product from its date-sorted training, validation and test rows. */
  function LaggedParts(tp: seq<DailyRow>, vp: seq<DailyRow>, sp: seq<DailyRow>): Parts
  {
    var trainP := AddLags(tp);
    var valP := AddLags(ByDate(tp + vp))[|tp|..];
    var testP := AddLags(ByDate(tp + RowsOfLagged(valP) + sp))[|tp| + |valP|..];
    Parts(trainP, valP, testP)
  }

  /** What the three lists hold after the loop has visited `products`. */
  function Collect(products: seq<string>, train: seq<DailyRow>, val: seq<DailyRow>, test: seq<DailyRow>): Parts
  {
    if products == [] then Parts([], [], [])
    else
      var c := Collect(products[..|products| - 1], train, val, test);
      var q := ProductLagged(products[|products| - 1], train, val, test);
      Parts(c.train + q.train, c.val + q.val, c.test + q.test)
  }

  /** create_lag_features_per_product: one pass over the products of the training part, appending to three lists. */
  method CreateLagFeaturesPerProduct(train: seq<DailyRow>, val: seq<DailyRow>, test: seq<DailyRow>)
    returns (trainL: seq<LaggedRow>, valL: seq<LaggedRow>, testL: seq<LaggedRow>)
    ensures Parts(trainL, valL, testL) == Collect(Distinct(ProductsOf(train)), train, val, test)
  {
    var products := Distinct(ProductsOf(train));
    trainL, valL, testL := [], [], [];
    for k := 0 to |products|
      invariant Parts(trainL, valL, testL) == Collect(products[..k], train, val, test)
    {
      var q := ProductLagged(products[k], train, val, test);
      CollectStep(products, k, train, val, test);
      trainL, valL, testL := trainL + q.train, valL + q.val, testL + q.test;
    }
    assert products[..|products|] == products;
  }

  /** The product's training, validation and test rows are in date order, as the chronological split leaves them. */
  predicate InDateOrder(train: seq<DailyRow>, val: seq<DailyRow>, test: seq<DailyRow>, p: string)
  {
    NotLaterRows(RowsOf(train, p), RowsOf(val, p)) && NotLaterRows(RowsOf(val, p), RowsOf(test, p))
    && NotLaterRows(RowsOf(train, p), RowsOf(test, p))
  }

  /** `df[df['product_name'].isin(products)]`, order kept. */
  function RowsOfProducts(rows: seq<DailyRow>, products: seq<string>): (r: seq<DailyRow>)
    ensures forall x :: x in r <==> x in rows && x.product in products
  {
    if rows == [] then []
    else
      var n := |rows| - 1;
      var head := RowsOfProducts(rows[..n], products);
      assert forall x :: x in rows <==> x in rows[..n] || x == rows[n];
      if rows[n].product in products then head + [rows[n]] else head
  }

  lemma {:induction false} RowsOfCount(rows: seq<DailyRow>, p: string, x: DailyRow)
    ensures multiset(RowsOf(rows, p))[x] == if x.product == p then multiset(rows)[x] else 0
  {
    if rows != [] {
      var n := |rows| - 1;
      RowsOfCount(rows[..n], p, x);
      assert rows == rows[..n] + [rows[n]];
    }
  }

  lemma {:induction false} RowsOfProductsCount(rows: seq<DailyRow>, products: seq<string>, x: DailyRow)
    ensures multiset(RowsOfProducts(rows, products))[x] == if x.product in products then multiset(rows)[x] else 0
  {
    if rows != [] {
      var n := |rows| - 1;
      RowsOfProductsCount(rows[..n], products, x);
      assert rows == rows[..n] + [rows[n]];
    }
  }

  lemma RowsOfLaggedConcat(a: seq<LaggedRow>, b: seq<LaggedRow>)
    ensures RowsOfLagged(a + b) == RowsOfLagged(a) + RowsOfLagged(b)
  {
  }

  /** With its parts in date order, one product's pass hands back exactly its training, validation and test rows. */
  lemma ProductLaggedKeepsRows(p: string, train: seq<DailyRow>, val: seq<DailyRow>, test: seq<DailyRow>)
    requires InDateOrder(train, val, test, p)
    ensures var q := ProductLagged(p, train, val, test);
      && multiset(RowsOfLagged(q.train)) == multiset(RowsOf(train, p))
      && multiset(RowsOfLagged(q.val)) == multiset(RowsOf(val, p))
      && multiset(RowsOfLagged(q.test)) == multiset(RowsOf(test, p))
  {
    var tp, vp, sp := ByDate(RowsOf(train, p)), ByDate(RowsOf(val, p)), ByDate(RowsOf(test, p));
    ProductLaggedInOrder(p, train, val, test);
    LaggedSuffixRows(tp, 0);
    LaggedSuffixRows(tp + vp, |tp|);
    LaggedSuffixRows(tp + vp + sp, |tp| + |vp|);
    assert AddLags(tp)[0..] == AddLags(tp) && tp[0..] == tp;
    assert (tp + vp)[|tp|..] == vp;
    assert (tp + vp + sp)[|tp| + |vp|..] == sp;
  }

  /**
   * After visiting distinct products whose parts are in date order, the
   * three lists hold every training, validation and test row of those
   * products, each as often as the input, and no other row.
   */
  lemma {:induction false} CollectKeepsRows(products: seq<string>, train: seq<DailyRow>, val: seq<DailyRow>, test: seq<DailyRow>)
    requires NoDuplicates(products)
    requires forall p :: p in products ==> InDateOrder(train, val, test, p)
    ensures var c := Collect(products, train, val, test);
      && multiset(RowsOfLagged(c.train)) == multiset(RowsOfProducts(train, products))
      && multiset(RowsOfLagged(c.val)) == multiset(RowsOfProducts(val, products))
      && multiset(RowsOfLagged(c.test)) == multiset(RowsOfProducts(test, products))
  {
    if products == [] {
      RowsOfProductsEmpty(train, products);
      RowsOfProductsEmpty(val, products);
      RowsOfProductsEmpty(test, products);
    } else {
      var n := |products| - 1;
      var init, p := products[..n], products[n];
      assert forall q :: q in init ==> q in products;
      assert p !in init;
      assert products[..n + 1] == products == init + [p];
      CollectKeepsRows(init, train, val, test);
      ProductLaggedKeepsRows(p, train, val, test);
      CollectStep(products, n, train, val, test);
      var c, q := Collect(init, train, val, test), ProductLagged(p, train, val, test);
      JoinRows(c.train, q.train, train, init, p);
      JoinRows(c.val, q.val, val, init, p);
      JoinRows(c.test, q.test, test, init, p);
    }
  }

  lemma RowsOfProductsEmpty(rows: seq<DailyRow>, products: seq<string>)
    requires products == []
    ensures RowsOfProducts(rows, products) == []
  {
  }

  /** One more product's rows, appended to the rows collected so far. */
  lemma JoinRows(collected: seq<LaggedRow>, more: seq<LaggedRow>, rows: seq<DailyRow>, init: seq<string>, p: string)
    requires p !in init
    requires multiset(RowsOfLagged(collected)) == multiset(RowsOfProducts(rows, init))
    requires multiset(RowsOfLagged(more)) == multiset(RowsOf(rows, p))
    ensures multiset(RowsOfLagged(collected + more)) == multiset(RowsOfProducts(rows, init + [p]))
  {
    RowsOfLaggedConcat(collected, more);
    AddProductRows(rows, init, p);
  }

  /** The rows of one more product, p, add exactly p's rows. */
  lemma AddProductRows(rows: seq<DailyRow>, init: seq<string>, p: string)
    requires p !in init
    ensures multiset(RowsOfProducts(rows, init + [p])) == multiset(RowsOfProducts(rows, init)) + multiset(RowsOf(rows, p))
  {
    forall x ensures multiset(RowsOfProducts(rows, init + [p]))[x]
      == (multiset(RowsOfProducts(rows, init)) + multiset(RowsOf(rows, p)))[x]
    {
      RowsOfProductsCount(rows, init + [p], x);
      RowsOfProductsCount(rows, init, x);
      RowsOfCount(rows, p, x);
      assert x.product in init + [p] <==> x.product in init || x.product == p;
    }
  }

  /**
   * create_lag_features_per_product, when every trained product's parts
   * are in date order: the training list holds every training row, and
   * the validation and test lists every row of a product seen in
   * training, each as often as in the input.
   */
  lemma CreateLagFeaturesKeepsRows(train: seq<DailyRow>, val: seq<DailyRow>, test: seq<DailyRow>)
    requires forall p :: p in ProductsOf(train) ==> InDateOrder(train, val, test, p)
    ensures var c := Collect(Distinct(ProductsOf(train)), train, val, test);
      && multiset(RowsOfLagged(c.train)) == multiset(train)
      && multiset(RowsOfLagged(c.val)) == multiset(RowsOfProducts(val, ProductsOf(train)))
      && multiset(RowsOfLagged(c.test)) == multiset(RowsOfProducts(test, ProductsOf(train)))
  {
    var ps := Distinct(ProductsOf(train));
    CollectKeepsRows(ps, train, val, test);
    SameProducts(train, ps, ProductsOf(train));
    SameProducts(val, ps, ProductsOf(train));
    SameProducts(test, ps, ProductsOf(train));
    OwnProductsSelectAll(train);
  }

  /** Selecting the rows of every product a frame names keeps the whole frame. */
  lemma OwnProductsSelectAll(rows: seq<DailyRow>)
    ensures multiset(RowsOfProducts(rows, ProductsOf(rows))) == multiset(rows)
  {
    forall x ensures multiset(RowsOfProducts(rows, ProductsOf(rows)))[x] == multiset(rows)[x] {
      RowsOfProductsCount(rows, ProductsOf(rows), x);
      if x in multiset(rows) {
        var i :| 0 <= i < |rows| && rows[i] == x;
        assert ProductsOf(rows)[i] == x.product;
      }
    }
  }

  /** Two lists with the same members select the same rows. */
  lemma SameProducts(rows: seq<DailyRow>, a: seq<string>, b: seq<string>)
    requires forall p :: p in a <==> p in b
    ensures multiset(RowsOfProducts(rows, a)) == multiset(RowsOfProducts(rows, b))
  {
    forall x ensures multiset(RowsOfProducts(rows, a))[x] == multiset(RowsOfProducts(rows, b))[x] {
      RowsOfProductsCount(rows, a, x);
      RowsOfProductsCount(rows, b, x);
    }
  }

  /** Visiting one more product appends its parts to the three lists. */
  lemma CollectStep(products: seq<string>, k: nat, train: seq<DailyRow>, val: seq<DailyRow>, test: seq<DailyRow>)
    requires k < |products|
    ensures var c, q := Collect(products[..k], train, val, test), ProductLagged(products[k], train, val, test);
      Collect(products[..k + 1], train, val, test) == Parts(c.train + q.train, c.val + q.val, c.test + q.test)
  {
    assert products[..k + 1][..k] == products[..k];
  }

  /** Every row of `a` is dated no later than every row of `b`. */
  predicate NotLaterRows(a: seq<DailyRow>, b: seq<DailyRow>)
  {
    forall x, y :: x in a && y in b ==> x.date <= y.date
  }

  lemma SortedConcat(a: seq<DailyRow>, b: seq<DailyRow>)
    requires SortedBy(a, DateOf) && SortedBy(b, DateOf) && NotLaterRows(a, b)
    ensures SortedBy(a + b, DateOf)
  {
    var c := a + b;
    forall i, j | 0 <= i < j < |c| ensures DateOf(c[i]) <= DateOf(c[j]) {
      if j < |a| {
        assert c[i] == a[i] && c[j] == a[j];
      } else if i >= |a| {
        assert c[i] == b[i - |a|] && c[j] == b[j - |a|];
      } else {
        assert c[i] == a[i] && c[j] == b[j - |a|];
        assert a[i] in a && b[j - |a|] in b;
      }
    }
  }

  lemma NotLaterByMembers(a: seq<DailyRow>, b: seq<DailyRow>, a2: seq<DailyRow>, b2: seq<DailyRow>)
    requires NotLaterRows(a, b)
    requires multiset(a2) == multiset(a) && multiset(b2) == multiset(b)
    ensures NotLaterRows(a2, b2)
  {
    forall x, y | x in a2 && y in b2 ensures x.date <= y.date {
      assert x in multiset(a2) && y in multiset(b2);
      assert x in a && y in b;
    }
  }

  lemma NotLaterConcat(a: seq<DailyRow>, b: seq<DailyRow>, c: seq<DailyRow>)
    requires NotLaterRows(a, c) && NotLaterRows(b, c)
    ensures NotLaterRows(a + b, c)
  {
  }

  /**
   * When a product's training rows precede its validation rows and those
   * precede its test rows (as the chronological split arranges),
   * validation row j gets the features of position |train| + j of the
   * train-then-validation series, and test row j those of position
   * |train| + |val| + j of the whole series: the lag windows reach back
   * across the split boundaries.
   */
  lemma ProductLaggedInOrder(p: string, train: seq<DailyRow>, val: seq<DailyRow>, test: seq<DailyRow>)
    requires NotLaterRows(RowsOf(train, p), RowsOf(val, p)) && NotLaterRows(RowsOf(val, p), RowsOf(test, p))
    requires NotLaterRows(RowsOf(train, p), RowsOf(test, p))
    ensures var tp, vp, sp := ByDate(RowsOf(train, p)), ByDate(RowsOf(val, p)), ByDate(RowsOf(test, p));
      ProductLagged(p, train, val, test) == Parts(AddLags(tp), AddLags(tp + vp)[|tp|..], AddLags(tp + vp + sp)[|tp| + |vp|..])
  {
    SortedLaggedParts(RowsOf(train, p), RowsOf(val, p), RowsOf(test, p));
  }

  /**
   * The parts are lagged as one series: validation row j gets the
   * features of position |tp| + j of tp + vp, test row j those of
   * position |tp| + |vp| + j of tp + vp + sp.
   */
  ghost predicate LaggedAsOneSeries(tp: seq<DailyRow>, vp: seq<DailyRow>, sp: seq<DailyRow>)
  {
    LaggedParts(tp, vp, sp) == Parts(AddLags(tp), AddLags(tp + vp)[|tp|..], AddLags(tp + vp + sp)[|tp| + |vp|..])
  }

  /** ProductLaggedInOrder for any three parts, each sorted by date before the lags are taken. */
  lemma SortedLaggedParts(a: seq<DailyRow>, b: seq<DailyRow>, c: seq<DailyRow>)
    requires NotLaterRows(a, b) && NotLaterRows(b, c) && NotLaterRows(a, c)
    ensures LaggedAsOneSeries(ByDate(a), ByDate(b), ByDate(c))
  {
    NotLaterByMembers(a, b, ByDate(a), ByDate(b));
    NotLaterByMembers(b, c, ByDate(b), ByDate(c));
    NotLaterByMembers(a, c, ByDate(a), ByDate(c));
    LaggedPartsInOrder(ByDate(a), ByDate(b), ByDate(c));
  }

  /** Parts already in date order are lagged as one series: the lag windows reach across the part boundaries. */
  lemma LaggedPartsInOrder(tp: seq<DailyRow>, vp: seq<DailyRow>, sp: seq<DailyRow>)
    requires SortedBy(tp, DateOf) && SortedBy(vp, DateOf) && SortedBy(sp, DateOf)
    requires NotLaterRows(tp, vp) && NotLaterRows(vp, sp) && NotLaterRows(tp, sp)
    ensures LaggedAsOneSeries(tp, vp, sp)
  {
    SortedJoin(tp, vp);
    LaggedSuffixRows(tp + vp, |tp|);
    assert (tp + vp)[|tp|..] == vp;
    NotLaterConcat(tp, vp, sp);
    SortedJoin(tp + vp, sp);
  }

  /** Two date-sorted lists, the first no later than the second, are already sorted when joined. */
  lemma SortedJoin(a: seq<DailyRow>, b: seq<DailyRow>)
    requires SortedBy(a, DateOf) && SortedBy(b, DateOf) && NotLaterRows(a, b)
    ensures ByDate(a + b) == a + b
  {
    SortedConcat(a, b);
    SortByOfSorted(a + b, DateOf);
  }

  /** The rows of a suffix of the lagged series are that suffix of the series. */
  lemma LaggedSuffixRows(s: seq<DailyRow>, k: nat)
    requires k <= |s|
    ensures RowsOfLagged(AddLags(s)[k..]) == s[k..]
  {
  }

  /**
   * Corrected: with the shifted trend, no validation row's features
   * depend on its own sales or on any later row.
   */
  lemma ValidationFeaturesUseOnlyThePast(tp: seq<DailyRow>, vp: seq<DailyRow>, j: nat, later: seq<DailyRow>)
    requires j < |vp| && |later| == |vp| && later[..j] == vp[..j]
    ensures CausalAddLags(tp + vp)[|tp| + j].features == CausalAddLags(tp + later)[|tp| + j].features
  {
    var s, t := SoldOf(tp + vp), SoldOf(tp + later);
    assert s[..|tp| + j] == t[..|tp| + j] by {
      forall i | 0 <= i < |tp| + j ensures s[i] == t[i] {
        if i >= |tp| {
          assert vp[..j][i - |tp|] == later[..j][i - |tp|];
        }
      }
    }
    LagsAtIsCausal(s, t, |tp| + j);
  }

  /**
   * As written, a validation row's trend reads its own sales: after seven
   * training days without sales, the first validation row gets trend 0 or
   * 5 depending only on what was sold that day.
   */
  lemma ValidationTrendSeesOwnSales()
    ensures var tp := seq(7, i => DailyRow(i, "roti", 0));
      var vp, later := [DailyRow(7, "roti", 0)], [DailyRow(7, "roti", 5)];
      AddLags(tp + vp)[7].features.trend == Some(0) && AddLags(tp + later)[7].features.trend == Some(5)
  {
    var tp := seq(7, i => DailyRow(i, "roti", 0));
    var vp, later := [DailyRow(7, "roti", 0)], [DailyRow(7, "roti", 5)];
    assert SoldOf(tp + vp)[7] == 0 && SoldOf(tp + vp)[0] == 0;
    assert SoldOf(tp + later)[7] == 5 && SoldOf(tp + later)[0] == 0;
  }

  /**
   * Validation and test rows of products that have no training rows are
   * dropped. (Inside the train endpoint such rows do not get this far:
   * the label encoder, fitted on the training products, raises first.)
   */
  lemma UnseenProductsDropped(train: seq<DailyRow>, val: seq<DailyRow>, test: seq<DailyRow>, p: string)
    requires p !in ProductsOf(train)
    ensures forall x :: x in Collect(Distinct(ProductsOf(train)), train, val, test).val ==> x.row.product != p
    ensures forall x :: x in Collect(Distinct(ProductsOf(train)), train, val, test).test ==> x.row.product != p
  {
    CollectProducts(Distinct(ProductsOf(train)), train, val, test);
  }

  lemma {:induction false} CollectProducts(products: seq<string>, train: seq<DailyRow>, val: seq<DailyRow>, test: seq<DailyRow>)
    ensures forall x :: x in Collect(products, train, val, test).val ==> x.row.product in products
    ensures forall x :: x in Collect(products, train, val, test).test ==> x.row.product in products
  {
    if products != [] {
      var n := |products| - 1;
      CollectProducts(products[..n], train, val, test);
      ProductLaggedRows(products[n], train, val, test);
      assert forall x :: x in products[..n] ==> x in products;
    }
  }

  lemma AddLagsRowsIn(rows: seq<DailyRow>, from: nat, p: string)
    requires from <= |rows| && forall x :: x in rows ==> x.product == p
    ensures forall x :: x in AddLags(rows)[from..] ==> x.row.product == p
  {
    var l := AddLags(rows);
    forall x | x in l[from..] ensures x.row.product == p {
      var i :| 0 <= i < |l[from..]| && l[from..][i] == x;
      assert x == l[from + i] && x.row == rows[from + i];
      assert rows[from + i] in rows;
    }
  }

  lemma ProductLaggedRows(p: string, train: seq<DailyRow>, val: seq<DailyRow>, test: seq<DailyRow>)
    ensures forall x :: x in ProductLagged(p, train, val, test).val ==> x.row.product == p
    ensures forall x :: x in ProductLagged(p, train, val, test).test ==> x.row.product == p
  {
    var tp, vp, sp := ByDate(RowsOf(train, p)), ByDate(RowsOf(val, p)), ByDate(RowsOf(test, p));
    OfProduct(RowsOf(train, p), tp, p);
    OfProduct(RowsOf(val, p), vp, p);
    OfProduct(RowsOf(test, p), sp, p);
    OfProduct(tp + vp, ByDate(tp + vp), p);
    AddLagsRowsIn(ByDate(tp + vp), |tp|, p);
    var valP := AddLags(ByDate(tp + vp))[|tp|..];
    var mid := RowsOfLagged(valP);
    assert forall x :: x in mid ==> x.product == p by {
      forall x | x in mid ensures x.product == p {
        var i :| 0 <= i < |mid| && mid[i] == x;
        assert valP[i] in valP;
      }
    }
    OfProduct(tp + mid + sp, ByDate(tp + mid + sp), p);
    AddLagsRowsIn(ByDate(tp + mid + sp), |tp| + |valP|, p);
  }

  lemma OfProduct(a: seq<DailyRow>, b: seq<DailyRow>, p: string)
    requires multiset(a) == multiset(b) && forall x :: x in a ==> x.product == p
    ensures forall x :: x in b ==> x.product == p
  {
    forall x | x in b ensures x.product == p {
      assert x in multiset(b);
      assert x in a;
    }
  }
}
