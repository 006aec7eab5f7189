/**
 * The backend's training and product-performance responses as the
 * results pages read them: the scenario records reach normalizeScenario
 * with their snake_case keys only, the recommendations page looks for a
 * scenario spelled `ML_Prediction` that the backend never sends, and the
 * "best" and "worst" product lists are cut from a list ordered by name.
 */
module EndToEnd {
  import opened Common
  import opened Sorting
  import opened ScenarioMetrics
  import BackendFinance
  import BackendTraining

  /** `financial_scenarios` of the training response, as the browser parses it. */
  function Response(rows: seq<BackendFinance.TestRow>, predictions: seq<real>): (fs: Scenarios)
    requires |predictions| == |rows|
    ensures fs.Keys == {"Baseline", "ML Prediction", "Perfect"}
  {
    var m := BackendFinance.Scenarios(rows, predictions);
    map name | name in m.Keys :: BackendFinance.AsJson(m[name])
  }

  /** The four totals the page shows for a backend scenario. */
  function Shown(s: BackendFinance.FinancialScenario): Scenario
  {
    Scenario(s.totalProfit, s.totalWaste as real, s.totalStockouts as real, s.serviceLevel)
  }

  /**
   * The financial page shows the backend's baseline and ML totals: with no
   * human-readable keys in the response, every field comes from the
   * snake_case fallback.
   */
  lemma FinancialPageShowsBackendTotals(rows: seq<BackendFinance.TestRow>, predictions: seq<real>)
    requires |predictions| == |rows|
    ensures BaselineOf(Response(rows, predictions))
      == Shown(BackendFinance.CalculateFinancialScenario(rows, BackendFinance.HistoricalAverage))
    ensures MlOf(Response(rows, predictions))
      == Shown(BackendFinance.CalculateFinancialScenario(rows, BackendFinance.Planned(BackendFinance.MlPlan(predictions))))
  {
    var fs, m := Response(rows, predictions), BackendFinance.Scenarios(rows, predictions);
    assert ScenarioRecord(fs, "Baseline") == BackendFinance.AsJson(m["Baseline"]);
    assert ScenarioRecord(fs, "ML Prediction") == BackendFinance.AsJson(m["ML Prediction"]);
  }

  /** As written, the recommendations page throws on every response the backend can send. */
  lemma RecommendationsNeverRender(rows: seq<BackendFinance.TestRow>, predictions: seq<real>, testSize: int)
    requires |predictions| == |rows|
    ensures RecommendationFiguresAsWritten(Response(rows, predictions), testSize) == Threw
  {
    RecommendationsThrowWithoutUnderscoreKey(Response(rows, predictions), testSize);
  }

  /**
   * Read under the name the backend uses, the figures exist for a
   * non-empty test set, and the gain still available from perfect
   * forecasting is never negative, since no plan beats producing exactly
   * the demand.
   */
  lemma CorrectedRecommendations(rows: seq<BackendFinance.TestRow>, predictions: seq<real>)
    requires |predictions| == |rows| > 0
    requires forall i :: 0 <= i < |rows| ==> rows[i].sold >= 0 && 0.0 <= rows[i].unitCost <= rows[i].price
    ensures var o := RecommendationFigures(Response(rows, predictions), |rows|);
      o.potentialGains.Some? && o.potentialGains.value >= 0.0 && o.annualImpact.Some?
  {
    var fs, m := Response(rows, predictions), BackendFinance.Scenarios(rows, predictions);
    FinancialPageShowsBackendTotals(rows, predictions);
    var plan := BackendFinance.MlPlan(predictions);
    BackendFinance.PerfectMaximisesProfit(rows, BackendFinance.Planned(plan));
    assert fs["Perfect"] == BackendFinance.AsJson(m["Perfect"]);
    var b := BaselineOf(fs).totalProfit;
    var gap := Normalize(fs["Perfect"]).totalProfit - MlOf(fs).totalProfit;
    assert gap >= 0.0;
    GainNonNegative(b, gap);
  }

  lemma GainNonNegative(b: real, gap: real)
    requires gap >= 0.0
    ensures (if b != 0.0 then gap / Abs(b) * 100.0 else 0.0) >= 0.0
  {
  }

  /** The product list in the shape the page reads. */
  function PageList(perf: seq<BackendTraining.ProductPerf>): (l: seq<ProductPerformance>)
    ensures |l| == |perf| && forall i :: 0 <= i < |perf| ==> l[i].product == perf[i].product && l[i].mae == perf[i].mae
  {
    seq(|perf|, i requires 0 <= i < |perf| =>
      ProductPerformance(perf[i].product, perf[i].avgActual, perf[i].avgPredicted, perf[i].mae))
  }

  /**
   * The "best" products are the (at most) three alphabetically first of
   * the test set and the "worst" the three alphabetically last: each
   * listed best name comes before every other product's, whatever the errors.
   */
  lemma BestAndWorstByName(test: seq<BackendTraining.Forecast>)
    ensures var perf := BackendTraining.ProductPerformance(test);
      var best, worst := BestProducts(PageList(perf)), WorstProducts(PageList(perf));
      |best| == Min(|perf|, 3) && |worst| == Min(|perf|, 3)
      && (forall i, j :: 0 <= i < |best| <= j < |perf| ==> LexLess(best[i], perf[j].product))
      && (forall i, j :: 0 <= j < |perf| - |worst| && 0 <= i < |worst| ==> LexLess(perf[j].product, worst[i]))
  {
    var perf := BackendTraining.ProductPerformance(test);
    SlicesOfSortedList(perf);
  }

  lemma SlicesOfSortedList(perf: seq<BackendTraining.ProductPerf>)
    requires StrictlySorted(seq(|perf|, i requires 0 <= i < |perf| => perf[i].product))
    ensures var best, worst := BestProducts(PageList(perf)), WorstProducts(PageList(perf));
      |best| == Min(|perf|, 3) && |worst| == Min(|perf|, 3)
      && (forall i, j :: 0 <= i < |best| <= j < |perf| ==> LexLess(best[i], perf[j].product))
      && (forall i, j :: 0 <= j < |perf| - |worst| && 0 <= i < |worst| ==> LexLess(perf[j].product, worst[i]))
  {
    var names := seq(|perf|, i requires 0 <= i < |perf| => perf[i].product);
    var l := PageList(perf);
    var k, w := Min(|perf|, 3), Max(|perf| - 3, 0);
    var best, worst := Names(l[..k]), Names(l[w..]);
    forall i, j | 0 <= i < |best| <= j < |perf| ensures LexLess(best[i], perf[j].product) {
      assert best[i] == l[..k][i].product == names[i];
      assert names[j] == perf[j].product;
    }
    forall i, j | 0 <= j < |perf| - |worst| && 0 <= i < |worst| ensures LexLess(perf[j].product, worst[i]) {
      assert worst[i] == l[w..][i].product == names[w + i];
      assert names[j] == perf[j].product;
    }
  }
}
