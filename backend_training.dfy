/**
 * The data-shaping rules of the training response and the two follow-up
 * endpoints (backend/main.py, train_models, get_product_performance,
 * get_feature_importance): choosing the best model, counting forecasts
 * within 5/10/20 percent, the per-product summary and the top features.
 */
module BackendTraining {
  import opened Common
  import opened Sorting
  import opened Series

  /** The three models, in the order they are trained and their results inserted. */
  const ModelNames: seq<string> := ["XGBoost", "Random Forest", "Gradient Boosting"]

  /**
   * Python's `min(results.items(), key=...)` on test MAEs: the position of
   * the first smallest value, none for an empty dictionary (where `min`
   * raises).
   */
  function FirstMinimum(maes: seq<real>): (r: Option<nat>)
    ensures r.None? <==> maes == []
    ensures r.Some? ==> r.value < |maes|
    ensures r.Some? ==> forall j :: 0 <= j < |maes| ==> maes[r.value] <= maes[j]
    ensures r.Some? ==> forall j :: 0 <= j < r.value ==> maes[r.value] < maes[j]
  {
    if maes == [] then None
    else
      var n := |maes| - 1;
      var b := FirstMinimum(maes[..n]);
      if b.None? || maes[n] < maes[b.value] then Some(n) else b
  }

  /** `best_model_name`. */
  function BestModelName(names: seq<string>, maes: seq<real>): (r: Option<string>)
    requires |names| == |maes|
    ensures r.None? <==> names == []
    ensures r.Some? ==> exists i :: (0 <= i < |names| && r.value == names[i] &&
      (forall j :: 0 <= j < |maes| ==> maes[i] <= maes[j]) && (forall j :: 0 <= j < i ==> maes[i] < maes[j]))
  {
    var b := FirstMinimum(maes);
    if b.None? then None else Some(names[b.value])
  }

  /** A three-way tie goes to XGBoost, the first model trained. */
  lemma TieGoesToFirstModel(mae: real)
    ensures BestModelName(ModelNames, [mae, mae, mae]) == Some("XGBoost")
  {
    assert [mae, mae, mae][..2] == [mae, mae] && [mae, mae][..1] == [mae] && [mae][..0] == [];
    assert FirstMinimum([mae]) == Some(0);
    assert FirstMinimum([mae, mae]) == Some(0);
    assert FirstMinimum([mae, mae, mae]) == Some(0);
  }

  /** One test row after prediction: demand and the clamped prediction. */
  datatype Forecast = Forecast(product: string, sold: int, predicted: real)

  function AbsError(f: Forecast): (e: real)
    ensures e >= 0.0 && (e == 0.0 <==> f.predicted == f.sold as real)
  {
    if f.sold as real >= f.predicted then f.sold as real - f.predicted else f.predicted - f.sold as real
  }

  /**
   * `abs_error / sold * 100 <= pct`; with no sales the quotient is infinite
   * or NaN and the comparison is false.
   */
  predicate Within(f: Forecast, pct: real)
    ensures f.sold == 0 ==> !Within(f, pct)
    ensures f.sold > 0 ==> (Within(f, pct) <==> AbsError(f) * 100.0 <= pct * f.sold as real)
  {
    f.sold != 0 && AbsError(f) / f.sold as real * 100.0 <= pct
  }

  function CountWithin(test: seq<Forecast>, pct: real): (c: nat)
    ensures c <= |test|
  {
    if test == [] then 0
    else CountWithin(test[..|test| - 1], pct) + (if Within(test[|test| - 1], pct) then 1 else 0)
  }

  /** A wider tolerance never counts fewer rows. */
  lemma {:induction false} CountWithinMonotone(test: seq<Forecast>, p: real, q: real)
    requires p <= q
    ensures CountWithin(test, p) <= CountWithin(test, q)
  {
    if test != [] {
      CountWithinMonotone(test[..|test| - 1], p, q);
    }
  }

  datatype AccuracyBreakdown = AccuracyBreakdown(within5: nat, within10: nat, within20: nat, total: nat)

  function Breakdown(test: seq<Forecast>): (b: AccuracyBreakdown)
    ensures b.within5 <= b.within10 <= b.within20 <= b.total == |test|
  {
    CountWithinMonotone(test, 5.0, 10.0);
    CountWithinMonotone(test, 10.0, 20.0);
    AccuracyBreakdown(CountWithin(test, 5.0), CountWithin(test, 10.0), CountWithin(test, 20.0), |test|)
  }

  /** Rows with no sales never count as accurate, however good the forecast. */
  lemma {:induction false} ZeroSalesNeverWithin(test: seq<Forecast>, pct: real)
    requires forall i :: 0 <= i < |test| ==> test[i].sold == 0
    ensures CountWithin(test, pct) == 0
  {
    if test != [] {
      CountWithinMonotone(test[..|test| - 1], pct, pct);
      ZeroSalesNeverWithin(test[..|test| - 1], pct);
    }
  }

  /** One entry of the product-performance list (MAPE left out). */
  datatype ProductPerf = ProductPerf(product: string, days: nat, avgActual: real, avgPredicted: real, mae: real)

  function ForecastsOf(test: seq<Forecast>, p: string): (r: seq<Forecast>)
    ensures forall x :: x in r <==> x in test && x.product == p
  {
    if test == [] then []
    else
      var n := |test| - 1;
      var head := ForecastsOf(test[..n], p);
      assert forall x :: x in test <==> x in test[..n] || x == test[n];
      if test[n].product == p then head + [test[n]] else head
  }

  function SumReal(s: seq<real>): real
  {
    if s == [] then 0.0 else SumReal(s[..|s| - 1]) + s[|s| - 1]
  }

  function ProductNames(test: seq<Forecast>): (s: seq<string>)
    ensures |s| == |test| && forall i :: 0 <= i < |test| ==> s[i] == test[i].product
  {
    seq(|test|, i requires 0 <= i < |test| => test[i].product)
  }

  function SoldValues(rows: seq<Forecast>): (s: seq<real>)
    ensures |s| == |rows| && forall j :: 0 <= j < |rows| ==> s[j] == rows[j].sold as real
  {
    seq(|rows|, j requires 0 <= j < |rows| => rows[j].sold as real)
  }

  function Predictions(rows: seq<Forecast>): (s: seq<real>)
    ensures |s| == |rows| && forall j :: 0 <= j < |rows| ==> s[j] == rows[j].predicted
  {
    seq(|rows|, j requires 0 <= j < |rows| => rows[j].predicted)
  }

  function AbsErrors(rows: seq<Forecast>): (s: seq<real>)
    ensures |s| == |rows| && forall j :: 0 <= j < |rows| ==> s[j] == AbsError(rows[j])
  {
    seq(|rows|, j requires 0 <= j < |rows| => AbsError(rows[j]))
  }

  /** One product's entry: its row count and the means of its sales, its forecasts and its absolute errors. */
  function Summary(test: seq<Forecast>, p: string): (e: ProductPerf)
    requires p in ProductNames(test)
    ensures e.product == p && e.days > 0
    ensures e.days == |ForecastsOf(test, p)|
  {
    ForecastsOfListed(test, p);
    Entry(p, ForecastsOf(test, p))
  }

  /** A product's three figures are the means of its test rows' sales, predictions and absolute errors. */
  lemma SummaryMeans(test: seq<Forecast>, p: string)
    requires p in ProductNames(test)
    ensures MeansOver(Summary(test, p), ForecastsOf(test, p))
  {
    ForecastsOfListed(test, p);
    EntryMeans(p, ForecastsOf(test, p));
  }

  /** The entry of product p over its rows. */
  function Entry(p: string, rows: seq<Forecast>): (e: ProductPerf)
    requires |rows| > 0
    ensures e.product == p && e.days == |rows|
  {
    var n := |rows| as real;
    ProductPerf(p, |rows|, SumReal(SoldValues(rows)) / n, SumReal(Predictions(rows)) / n, SumReal(AbsErrors(rows)) / n)
  }

  /**
   * The entry counts the rows, and each of its means times that count is
   * the column's total: mean sales, mean forecast and mean absolute error.
   */
  predicate MeansOver(e: ProductPerf, rows: seq<Forecast>)
  {
    && e.days == |rows|
    && e.avgActual * e.days as real == SumReal(SoldValues(rows))
    && e.avgPredicted * e.days as real == SumReal(Predictions(rows))
    && e.mae * e.days as real == SumReal(AbsErrors(rows))
  }

  lemma EntryMeans(p: string, rows: seq<Forecast>)
    requires |rows| > 0
    ensures MeansOver(Entry(p, rows), rows)
  {
    var e := Entry(p, rows);
    MeanTimesCount(SumReal(SoldValues(rows)), |rows|, e.avgActual);
    MeanTimesCount(SumReal(Predictions(rows)), |rows|, e.avgPredicted);
    MeanTimesCount(SumReal(AbsErrors(rows)), |rows|, e.mae);
  }

  /** A mean times the count gives back the total. */
  lemma MeanTimesCount(total: real, n: nat, mean: real)
    requires n > 0 && mean == total / n as real
    ensures mean * n as real == total
  {
  }

  /** A product of the test set has at least one forecast. */
  lemma ForecastsOfListed(test: seq<Forecast>, p: string)
    requires p in ProductNames(test)
    ensures |ForecastsOf(test, p)| > 0
  {
    var i :| 0 <= i < |test| && ProductNames(test)[i] == p;
    assert test[i] in ForecastsOf(test, p);
  }

  /** get_product_performance: one entry per product of the test set, in ascending order of name. */
  function ProductPerformance(test: seq<Forecast>): (r: seq<ProductPerf>)
    ensures StrictlySorted(seq(|r|, i requires 0 <= i < |r| => r[i].product))
    ensures forall p :: (exists i :: 0 <= i < |r| && r[i].product == p) <==> p in ProductNames(test)
    ensures forall i :: 0 <= i < |r| ==> r[i].days == |ForecastsOf(test, r[i].product)| > 0
    ensures forall i :: 0 <= i < |r| ==> r[i].product in ProductNames(test) && r[i] == Summary(test, r[i].product)
  {
    var names := SortedUnique(ProductNames(test));
    SortedUniqueCorrect(ProductNames(test));
    var r := Summaries(test, names);
    SummariesNamed(test, names, r);
    EntriesNamed(r, names);
    r
  }

  /** The entries of the listed products, in the order listed. */
  function Summaries(test: seq<Forecast>, names: seq<string>): (r: seq<ProductPerf>)
    requires forall p :: p in names ==> p in ProductNames(test)
    ensures |r| == |names|
    ensures forall i :: 0 <= i < |r| ==> names[i] in ProductNames(test) && r[i] == Summary(test, names[i])
  {
    seq(|names|, i requires 0 <= i < |names| => Summary(test, names[i]))
  }

  /** Each entry of Summaries carries the name it was made for. */
  lemma SummariesNamed(test: seq<Forecast>, names: seq<string>, r: seq<ProductPerf>)
    requires |r| == |names|
    requires forall i :: 0 <= i < |r| ==> names[i] in ProductNames(test) && r[i] == Summary(test, names[i])
    ensures seq(|r|, i requires 0 <= i < |r| => r[i].product) == names
    ensures forall i :: 0 <= i < |r| ==> r[i].product in ProductNames(test) && r[i] == Summary(test, r[i].product)
  {
    forall i | 0 <= i < |r|
      ensures r[i].product == names[i]
    {
      assert r[i] == Summary(test, names[i]);
    }
  }

  /** The entries of a list whose names are `names` name exactly the members of `names`. */
  lemma EntriesNamed(r: seq<ProductPerf>, names: seq<string>)
    requires seq(|r|, i requires 0 <= i < |r| => r[i].product) == names
    ensures forall p :: (exists i :: 0 <= i < |r| && r[i].product == p) <==> p in names
  {
    forall p | p in names ensures exists i :: 0 <= i < |r| && r[i].product == p {
      var i :| 0 <= i < |names| && names[i] == p;
      assert r[i].product == p;
    }
    forall i | 0 <= i < |r| ensures r[i].product in names {
      assert names[i] == r[i].product;
    }
  }

  /** The mean absolute error of a product is never negative. */
  lemma {:induction false} SumRealNonNegative(s: seq<real>)
    requires forall i :: 0 <= i < |s| ==> s[i] >= 0.0
    ensures SumReal(s) >= 0.0
  {
    if s != [] {
      SumRealNonNegative(s[..|s| - 1]);
    }
  }

  lemma ProductMaeNonNegative(test: seq<Forecast>, p: string)
    requires p in ProductNames(test)
    ensures Summary(test, p).mae >= 0.0
  {
    var rows := ForecastsOf(test, p);
    SumRealNonNegative(AbsErrors(rows));
  }

  /** One feature with the best model's importance for it. */
  datatype Importance = Importance(feature: string, importance: real)

  const TopCount := 15

  function Descending(x: Importance): real
  {
    -x.importance
  }

  /**
   * get_feature_importance: pair the feature names with the importances
   * (a length mismatch fails), sort by importance, largest first, and keep
   * the first 15; ties keep their input order.
   */
  function TopFeatures(features: seq<string>, importances: seq<real>): (r: Option<seq<Importance>>)
    ensures r.None? <==> |features| != |importances|
    ensures r.Some? ==> |r.value| == Min(TopCount, |features|)
    ensures r.Some? ==> forall i, j :: 0 <= i < j < |r.value| ==> r.value[i].importance >= r.value[j].importance
    ensures r.Some? ==> multiset(r.value) <= multiset(Pairs(features, importances))
    ensures r.Some? ==> forall x, y :: x in multiset(Pairs(features, importances)) - multiset(r.value) && y in r.value ==>
      x.importance <= y.importance
  {
    if |features| != |importances| then None
    else
      var pairs := Pairs(features, importances);
      var sorted := SortBy(pairs, Descending);
      SortByCorrect(pairs, Descending);
      var m := Min(TopCount, |features|);
      TopOfSorted(pairs, sorted, m);
      Some(sorted[..m])
  }

  /**
   * Cutting a list sorted largest first keeps its order and keeps no
   * smaller importance than any it drops.
   */
  lemma TopOfSorted(pairs: seq<Importance>, sorted: seq<Importance>, m: nat)
    requires m <= |sorted| && SortedBy(sorted, Descending) && multiset(sorted) == multiset(pairs)
    ensures forall i, j :: 0 <= i < j < m ==> sorted[..m][i].importance >= sorted[..m][j].importance
    ensures multiset(sorted[..m]) <= multiset(pairs)
    ensures forall x, y :: x in multiset(pairs) - multiset(sorted[..m]) && y in sorted[..m] ==>
      x.importance <= y.importance
  {
    var top, rest := sorted[..m], sorted[m..];
    assert sorted == top + rest;
    assert multiset(pairs) - multiset(top) == multiset(rest);
    PrefixOrdered(sorted, m);
    PrefixDominates(sorted, m);
  }

  lemma PrefixOrdered(sorted: seq<Importance>, m: nat)
    requires m <= |sorted| && SortedBy(sorted, Descending)
    ensures forall i, j :: 0 <= i < j < m ==> sorted[..m][i].importance >= sorted[..m][j].importance
  {
    forall i, j | 0 <= i < j < m ensures sorted[..m][i].importance >= sorted[..m][j].importance {
      assert Descending(sorted[i]) <= Descending(sorted[j]);
    }
  }

  lemma PrefixDominates(sorted: seq<Importance>, m: nat)
    requires m <= |sorted| && SortedBy(sorted, Descending)
    ensures forall x, y :: x in multiset(sorted[m..]) && y in sorted[..m] ==> x.importance <= y.importance
  {
    var top, rest := sorted[..m], sorted[m..];
    forall x: Importance, y: Importance | x in multiset(rest) && y in top ensures x.importance <= y.importance {
      var a :| 0 <= a < |rest| && rest[a] == x;
      var b :| 0 <= b < |top| && top[b] == y;
      assert sorted[b] == y && sorted[m + a] == x;
      assert Descending(sorted[b]) <= Descending(sorted[m + a]);
    }
  }

  function Pairs(features: seq<string>, importances: seq<real>): (r: seq<Importance>)
    requires |features| == |importances|
    ensures |r| == |features|
  {
    seq(|features|, i requires 0 <= i < |features| => Importance(features[i], importances[i]))
  }
}
