/**
 * The backend's what-if simulation of one production strategy over the
 * test rows (backend/main.py, calculate_financial_scenario): per row,
 * what is sold, wasted and missed, what it earns and costs, and the
 * totals returned to the page.
 */
module BackendFinance {
  import opened Common

  /** One test row: a product's demand on one day and its prices. */
  datatype TestRow = TestRow(product: string, sold: int, price: real, unitCost: real)

  /** The strategies the backend simulates; `Planned` carries a production plan, one quantity per row. */
  datatype Strategy = HistoricalAverage | Perfect | Planned(produced: seq<int>)

  function Ceil(x: real): (r: int)
    ensures x <= r as real < x + 1.0
  {
    -((-x).Floor)
  }

  function ProductRows(rows: seq<TestRow>, p: string): nat
  {
    if rows == [] then 0
    else ProductRows(rows[..|rows| - 1], p) + (if rows[|rows| - 1].product == p then 1 else 0)
  }

  function ProductSold(rows: seq<TestRow>, p: string): int
  {
    if rows == [] then 0
    else ProductSold(rows[..|rows| - 1], p) + (if rows[|rows| - 1].product == p then rows[|rows| - 1].sold else 0)
  }

  lemma {:induction false} ProductRowsOfMember(rows: seq<TestRow>, i: nat)
    requires i < |rows|
    ensures ProductRows(rows, rows[i].product) > 0
  {
    if i < |rows| - 1 {
      ProductRowsOfMember(rows[..|rows| - 1], i);
    }
  }

  lemma {:induction false} ProductSoldBounds(rows: seq<TestRow>, p: string)
    ensures (forall i :: 0 <= i < |rows| ==> rows[i].sold >= 0) ==> ProductSold(rows, p) >= 0
  {
    if rows != [] {
      ProductSoldBounds(rows[..|rows| - 1], p);
    }
  }

  /**
   * `ceil(groupby('product_name')['sold'].transform('mean'))` for the
   * product of row i. The mean is taken over the rows given, which are the
   * test rows themselves.
   */
  function HistoricalAverageAt(rows: seq<TestRow>, i: nat): (q: int)
    requires i < |rows|
    ensures ProductRows(rows, rows[i].product) > 0
    ensures var p := rows[i].product;
      var mean := ProductSold(rows, p) as real / ProductRows(rows, p) as real;
      mean <= q as real < mean + 1.0
    ensures (forall j :: 0 <= j < |rows| ==> rows[j].sold >= 0) ==> q >= 0
  {
    var p := rows[i].product;
    ProductRowsOfMember(rows, i);
    ProductSoldBounds(rows, p);
    Ceil(ProductSold(rows, p) as real / ProductRows(rows, p) as real)
  }

  /** `produced_sim`: the quantity the strategy produces on each row. */
  function ProducedSim(rows: seq<TestRow>, strategy: Strategy): (q: seq<int>)
    requires strategy.Planned? ==> |strategy.produced| == |rows|
    ensures |q| == |rows|
    ensures strategy.HistoricalAverage? ==> forall i :: 0 <= i < |rows| ==> q[i] == HistoricalAverageAt(rows, i)
    ensures strategy.Perfect? ==> forall i :: 0 <= i < |rows| ==> q[i] == rows[i].sold
    ensures strategy.Planned? ==> q == strategy.produced
  {
    match strategy
    case HistoricalAverage => seq(|rows|, i requires 0 <= i < |rows| => HistoricalAverageAt(rows, i))
    case Perfect => seq(|rows|, i requires 0 <= i < |rows| => rows[i].sold)
    case Planned(plan) => plan
  }

  /** The derived columns of one row. */
  datatype RowOutcome = RowOutcome(
    soldActual: int, waste: int, stockout: int,
    revenue: real, productionCost: real, wasteCost: real, opportunityCost: real, profit: real)

  function SimulateRow(produced: int, row: TestRow): (o: RowOutcome)
    ensures o.soldActual <= produced && o.soldActual <= row.sold
    ensures o.soldActual == produced || o.soldActual == row.sold
    ensures o.waste >= 0 && o.stockout >= 0 && (o.waste == 0 || o.stockout == 0)
    ensures o.soldActual + o.waste == produced && o.soldActual + o.stockout == row.sold
  {
    var demand := row.sold;
    var soldActual := Min(produced, demand);
    var waste := Max(produced - demand, 0);
    var stockout := Max(demand - produced, 0);
    var revenue := soldActual as real * row.price;
    var productionCost := produced as real * row.unitCost;
    var wasteCost := waste as real * row.unitCost;
    var opportunityCost := stockout as real * (row.price - row.unitCost);
    var totalCost := productionCost + opportunityCost;
    RowOutcome(soldActual, waste, stockout, revenue, productionCost, wasteCost, opportunityCost, revenue - totalCost)
  }

  /** Column sums of the simulation, plus the units produced and demanded. */
  datatype Totals = Totals(
    revenue: real, productionCost: real, wasteCost: real, opportunityCost: real, profit: real,
    produced: int, soldActual: int, waste: int, stockouts: int, demand: int)

  function Accumulate(produced: seq<int>, rows: seq<TestRow>): Totals
    requires |produced| == |rows|
  {
    if rows == [] then Totals(0.0, 0.0, 0.0, 0.0, 0.0, 0, 0, 0, 0, 0)
    else
      var n := |rows| - 1;
      var t := Accumulate(produced[..n], rows[..n]);
      var o := SimulateRow(produced[n], rows[n]);
      Totals(t.revenue + o.revenue, t.productionCost + o.productionCost, t.wasteCost + o.wasteCost,
             t.opportunityCost + o.opportunityCost, t.profit + o.profit,
             t.produced + produced[n], t.soldActual + o.soldActual, t.waste + o.waste,
             t.stockouts + o.stockout, t.demand + rows[n].sold)
  }

  /** `(1 - stockouts / demand) * 100`, or 100 when there is no positive demand. */
  function ServiceLevel(stockouts: int, demand: int): (r: real)
    ensures demand <= 0 ==> r == 100.0
    ensures r == 100.0 <==> demand <= 0 || stockouts == 0
    ensures demand > 0 && 0 <= stockouts <= demand ==> 0.0 <= r <= 100.0
  {
    if demand > 0 then (1.0 - stockouts as real / demand as real) * 100.0 else 100.0
  }

  /** The dictionary calculate_financial_scenario returns. */
  datatype FinancialScenario = FinancialScenario(
    totalRevenue: real, productionCost: real, wasteCost: real, opportunityCost: real,
    totalProfit: real, totalWaste: int, totalStockouts: int, serviceLevel: real)

  /**
   * calculate_financial_scenario: the totals of the simulated rows. Profit
   * is revenue less production and opportunity cost, waste and stockouts
   * are never negative, and nothing missed means full service.
   */
  function CalculateFinancialScenario(rows: seq<TestRow>, strategy: Strategy): (r: FinancialScenario)
    requires strategy.Planned? ==> |strategy.produced| == |rows|
    ensures r.totalProfit == r.totalRevenue - (r.productionCost + r.opportunityCost)
    ensures r.totalWaste >= 0 && r.totalStockouts >= 0
    ensures r.totalStockouts == 0 ==> r.serviceLevel == 100.0
  {
    var t := Accumulate(ProducedSim(rows, strategy), rows);
    ProfitIdentity(ProducedSim(rows, strategy), rows);
    LossesNonNegative(ProducedSim(rows, strategy), rows);
    FinancialScenario(t.revenue, t.productionCost, t.wasteCost, t.opportunityCost, t.profit,
                      t.waste, t.stockouts, ServiceLevel(t.stockouts, t.demand))
  }

  /** Over the whole test set, units sold plus wasted are the units produced, and sold plus missed the demand. */
  lemma {:induction false} UnitsBalance(produced: seq<int>, rows: seq<TestRow>)
    requires |produced| == |rows|
    ensures Accumulate(produced, rows).soldActual + Accumulate(produced, rows).waste == Accumulate(produced, rows).produced
    ensures Accumulate(produced, rows).soldActual + Accumulate(produced, rows).stockouts == Accumulate(produced, rows).demand
  {
    if rows != [] {
      UnitsBalance(produced[..|rows| - 1], rows[..|rows| - 1]);
    }
  }

  /** Summed waste and stockouts are never negative, whatever the plan. */
  lemma {:induction false} LossesNonNegative(produced: seq<int>, rows: seq<TestRow>)
    requires |produced| == |rows|
    ensures Accumulate(produced, rows).waste >= 0 && Accumulate(produced, rows).stockouts >= 0
  {
    if rows != [] {
      LossesNonNegative(produced[..|rows| - 1], rows[..|rows| - 1]);
    }
  }

  /** Total profit is total revenue less total production and opportunity cost. */
  lemma {:induction false} ProfitIdentity(produced: seq<int>, rows: seq<TestRow>)
    requires |produced| == |rows|
    ensures var t := Accumulate(produced, rows); t.profit == t.revenue - (t.productionCost + t.opportunityCost)
  {
    if rows != [] {
      ProfitIdentity(produced[..|rows| - 1], rows[..|rows| - 1]);
    }
  }

  /** Non-negative production never misses more than the demand. */
  lemma {:induction false} StockoutsWithinDemand(produced: seq<int>, rows: seq<TestRow>)
    requires |produced| == |rows|
    requires forall i :: 0 <= i < |rows| ==> produced[i] >= 0 && rows[i].sold >= 0
    ensures 0 <= Accumulate(produced, rows).stockouts <= Accumulate(produced, rows).demand
  {
    if rows != [] {
      StockoutsWithinDemand(produced[..|rows| - 1], rows[..|rows| - 1]);
    }
  }

  /** The reported service level is a percentage. */
  lemma ServiceLevelInRange(rows: seq<TestRow>, strategy: Strategy)
    requires strategy.Planned? ==> |strategy.produced| == |rows|
    requires forall i :: 0 <= i < |rows| ==> rows[i].sold >= 0
    requires strategy.Planned? ==> forall i :: 0 <= i < |rows| ==> strategy.produced[i] >= 0
    ensures 0.0 <= CalculateFinancialScenario(rows, strategy).serviceLevel <= 100.0
  {
    StockoutsWithinDemand(ProducedSim(rows, strategy), rows);
  }

  lemma {:induction false} PerfectTotals(rows: seq<TestRow>)
    ensures var t := Accumulate(ProducedSim(rows, Perfect), rows); t.waste == 0 && t.stockouts == 0
  {
    if rows != [] {
      var n := |rows| - 1;
      PerfectTotals(rows[..n]);
      assert ProducedSim(rows, Perfect)[..n] == ProducedSim(rows[..n], Perfect);
    }
  }

  /** Producing exactly the demand wastes nothing, misses nothing and serves every customer. */
  lemma PerfectScenario(rows: seq<TestRow>)
    ensures CalculateFinancialScenario(rows, Perfect).totalWaste == 0
    ensures CalculateFinancialScenario(rows, Perfect).totalStockouts == 0
    ensures CalculateFinancialScenario(rows, Perfect).serviceLevel == 100.0
  {
    PerfectTotals(rows);
  }

  /** On one row with 0 <= cost <= price, producing the demand earns at least as much as any other quantity. */
  lemma RowProfitAtMostPerfect(produced: int, row: TestRow)
    requires produced >= 0 && row.sold >= 0 && 0.0 <= row.unitCost <= row.price
    ensures SimulateRow(produced, row).profit <= SimulateRow(row.sold, row).profit
  {
    var d, p, price, cost := row.sold, produced, row.price, row.unitCost;
    if p >= d {
      assert (p - d) as real * cost >= 0.0;
    } else {
      assert (d - p) as real * (price - cost) >= 0.0;
    }
  }

  lemma {:induction false} PerfectDominatesTotals(produced: seq<int>, rows: seq<TestRow>)
    requires |produced| == |rows|
    requires forall i :: 0 <= i < |rows| ==> produced[i] >= 0 && rows[i].sold >= 0 && 0.0 <= rows[i].unitCost <= rows[i].price
    ensures Accumulate(produced, rows).profit <= Accumulate(ProducedSim(rows, Perfect), rows).profit
  {
    if rows != [] {
      var n := |rows| - 1;
      PerfectDominatesTotals(produced[..n], rows[..n]);
      assert ProducedSim(rows, Perfect)[..n] == ProducedSim(rows[..n], Perfect);
      RowProfitAtMostPerfect(produced[n], rows[n]);
    }
  }

  /** With prices covering costs, no strategy beats the Perfect scenario's profit: the gap to perfect is never negative. */
  lemma PerfectMaximisesProfit(rows: seq<TestRow>, strategy: Strategy)
    requires strategy.Planned? ==> |strategy.produced| == |rows|
    requires forall i :: 0 <= i < |rows| ==> rows[i].sold >= 0 && 0.0 <= rows[i].unitCost <= rows[i].price
    requires strategy.Planned? ==> forall i :: 0 <= i < |rows| ==> strategy.produced[i] >= 0
    ensures CalculateFinancialScenario(rows, strategy).totalProfit <= CalculateFinancialScenario(rows, Perfect).totalProfit
  {
    PerfectDominatesTotals(ProducedSim(rows, strategy), rows);
  }

  /** The ML plan: `np.ceil` of the clamped predictions, the smallest whole quantity covering each. */
  function MlPlan(predictions: seq<real>): (plan: seq<int>)
    ensures |plan| == |predictions|
    ensures forall i :: 0 <= i < |plan| ==>
      plan[i] >= 0 && predictions[i] <= plan[i] as real < ClampPrediction(predictions[i]) + 1.0
  {
    seq(|predictions|, i requires 0 <= i < |predictions| => Ceil(ClampPrediction(predictions[i])))
  }

  /** The three scenarios of the training response, under the names it uses. */
  function Scenarios(rows: seq<TestRow>, predictions: seq<real>): (m: map<string, FinancialScenario>)
    requires |predictions| == |rows|
    ensures m.Keys == {"Baseline", "ML Prediction", "Perfect"}
  {
    map["Baseline" := CalculateFinancialScenario(rows, HistoricalAverage),
        "ML Prediction" := CalculateFinancialScenario(rows, Planned(MlPlan(predictions))),
        "Perfect" := CalculateFinancialScenario(rows, Perfect)]
  }

  /** The snake_case record the backend serialises for one scenario. */
  function AsJson(s: FinancialScenario): (r: Record)
    ensures "total_profit" in r && "total_waste" in r && "total_stockouts" in r && "service_level" in r
    ensures "Total Profit" !in r && "Total Waste" !in r && "Total Stockouts" !in r && "Service Level" !in r
  {
    map["total_revenue" := Num(s.totalRevenue), "production_cost" := Num(s.productionCost),
        "waste_cost" := Num(s.wasteCost), "opportunity_cost" := Num(s.opportunityCost),
        "total_profit" := Num(s.totalProfit), "total_waste" := Num(s.totalWaste as real),
        "total_stockouts" := Num(s.totalStockouts as real), "service_level" := Num(s.serviceLevel)]
  }
}
