/**
 * The numbers the results pages derive from a training response before
 * display (app.js): tolerant normalisation of the scenario records, the
 * guarded profit and waste percentages, the per-product advice labels,
 * the accuracy ratios, and the figures of the recommendations page.
 */
module ScenarioMetrics {
  import opened Common

  /** The four numbers shown for one scenario, always present. */
  datatype Scenario = Scenario(totalProfit: real, totalWaste: real, totalStockouts: real, serviceLevel: real)

  /** `financial_scenarios`: scenario name to its raw record (an absent or null entry is left out). */
  type Scenarios = map<string, Record>

  const ZeroScenario := Scenario(0.0, 0.0, 0.0, 0.0)

  /** `r[key]` is neither null nor undefined. */
  predicate Present(r: Record, key: string)
  {
    key in r && r[key].Num?
  }

  /** `r[human] ?? r[snake] ?? 0`. */
  function Lookup(r: Record, human: string, snake: string): real
  {
    if Present(r, human) then r[human].x
    else if Present(r, snake) then r[snake].x
    else 0.0
  }

  /** `v` is what `r[human] ?? r[snake] ?? 0` evaluates to. */
  predicate ReadsAs(r: Record, human: string, snake: string, v: real)
  {
    && (Present(r, human) ==> v == r[human].x)
    && (!Present(r, human) && Present(r, snake) ==> v == r[snake].x)
    && (!Present(r, human) && !Present(r, snake) ==> v == 0.0)
  }

  /** normalizeScenario: each field from its human-readable key, else its snake_case key, else 0. */
  function Normalize(r: Record): (n: Scenario)
    ensures ReadsAs(r, "Total Profit", "total_profit", n.totalProfit)
    ensures ReadsAs(r, "Total Waste", "total_waste", n.totalWaste)
    ensures ReadsAs(r, "Total Stockouts", "total_stockouts", n.totalStockouts)
    ensures ReadsAs(r, "Service Level", "service_level", n.serviceLevel)
  {
    Scenario(
      Lookup(r, "Total Profit", "total_profit"),
      Lookup(r, "Total Waste", "total_waste"),
      Lookup(r, "Total Stockouts", "total_stockouts"),
      Lookup(r, "Service Level", "service_level"))
  }

  /** The object normalizeScenario returns, seen again as a raw record. */
  function AsRecord(s: Scenario): Record
  {
    map["total_profit" := Num(s.totalProfit), "total_waste" := Num(s.totalWaste),
        "total_stockouts" := Num(s.totalStockouts), "service_level" := Num(s.serviceLevel)]
  }

  /** A scenario written with human-readable keys only. */
  function AsHumanRecord(s: Scenario): Record
  {
    map["Total Profit" := Num(s.totalProfit), "Total Waste" := Num(s.totalWaste),
        "Total Stockouts" := Num(s.totalStockouts), "Service Level" := Num(s.serviceLevel)]
  }

  /** `scenarios[name] || {}`. */
  function ScenarioRecord(fs: Scenarios, name: string): Record
  {
    if name in fs then fs[name] else map[]
  }

  /** The two scenarios the financial page reads; only the spelling "ML Prediction" is consulted. */
  function BaselineOf(fs: Scenarios): Scenario { Normalize(ScenarioRecord(fs, "Baseline")) }

  function MlOf(fs: Scenarios): Scenario { Normalize(ScenarioRecord(fs, "ML Prediction")) }

  /** A human-readable key holding a number wins over the snake_case key, even when it holds 0. */
  lemma HumanKeyWins(r: Record, human: string, snake: string)
    requires Present(r, human)
    ensures Lookup(r, human, snake) == r[human].x
  {
  }

  /** Normalisation reads the same values whichever spelling the backend used. */
  lemma NormalizeSpellingInvariant(s: Scenario)
    ensures Normalize(AsRecord(s)) == s
    ensures Normalize(AsHumanRecord(s)) == s
  {
  }

  /** Normalising the output of normalizeScenario returns it unchanged. */
  lemma NormalizeIdempotent(r: Record)
    ensures Normalize(AsRecord(Normalize(r))) == Normalize(r)
  {
    NormalizeSpellingInvariant(Normalize(r));
  }

  /** Every field both keys leave null or undefined is 0. */
  lemma NormalizeDefaults(r: Record)
    ensures !Present(r, "Total Profit") && !Present(r, "total_profit") ==> Normalize(r).totalProfit == 0.0
    ensures !Present(r, "Total Waste") && !Present(r, "total_waste") ==> Normalize(r).totalWaste == 0.0
    ensures !Present(r, "Total Stockouts") && !Present(r, "total_stockouts") ==> Normalize(r).totalStockouts == 0.0
    ensures !Present(r, "Service Level") && !Present(r, "service_level") ==> Normalize(r).serviceLevel == 0.0
  {
  }

  /** A missing Baseline or "ML Prediction" entry normalises to all zeros. */
  lemma AbsentScenarioIsZero(fs: Scenarios)
    ensures "Baseline" !in fs ==> BaselineOf(fs) == ZeroScenario
    ensures "ML Prediction" !in fs ==> MlOf(fs) == ZeroScenario
  {
  }

  /** A payload that spells the key "ML_Prediction" is shown as an all-zero ML scenario. */
  lemma UnderscoreSpellingIgnored(fs: Scenarios)
    requires "ML_Prediction" in fs && "ML Prediction" !in fs
    ensures MlOf(fs) == ZeroScenario
  {
  }

  function Abs(x: real): real { if x < 0.0 then -x else x }

  /** Profit improvement in percent of the baseline's magnitude; 0 when the baseline profit is 0. */
  function ProfitImprovement(baseline: real, ml: real): (p: real)
    ensures baseline == 0.0 ==> p == 0.0
    ensures baseline != 0.0 ==> p * Abs(baseline) == (ml - baseline) * 100.0
    ensures p > 0.0 <==> baseline != 0.0 && ml > baseline
    ensures p < 0.0 <==> baseline != 0.0 && ml < baseline
  {
    if baseline != 0.0 then (ml - baseline) / Abs(baseline) * 100.0 else 0.0
  }

  /** Waste reduction in percent of the baseline waste; 0 when the baseline waste is 0. */
  function WasteReduction(baselineWaste: real, mlWaste: real): (w: real)
    ensures baselineWaste == 0.0 ==> w == 0.0
    ensures baselineWaste != 0.0 ==> w * baselineWaste == (baselineWaste - mlWaste) * 100.0
    ensures baselineWaste > 0.0 ==> (w > 0.0 <==> mlWaste < baselineWaste)
    ensures baselineWaste > 0.0 && mlWaste >= 0.0 ==> w <= 100.0
  {
    if baselineWaste != 0.0 then (baselineWaste - mlWaste) / baselineWaste * 100.0 else 0.0
  }

  /** The three key metrics of the financial page. */
  datatype Comparison = Comparison(profitImprovement: real, wasteReduction: real, additionalProfit: real)

  function Compare(fs: Scenarios): (c: Comparison)
    ensures c.profitImprovement == ProfitImprovement(BaselineOf(fs).totalProfit, MlOf(fs).totalProfit)
    ensures c.wasteReduction == WasteReduction(BaselineOf(fs).totalWaste, MlOf(fs).totalWaste)
    ensures BaselineOf(fs).totalProfit + c.additionalProfit == MlOf(fs).totalProfit
    ensures BaselineOf(fs).totalProfit != 0.0 ==>
      (c.profitImprovement > 0.0 <==> c.additionalProfit > 0.0)
      && (c.profitImprovement == 0.0 <==> c.additionalProfit == 0.0)
  {
    var baseline, ml := BaselineOf(fs), MlOf(fs);
    Comparison(
      ProfitImprovement(baseline.totalProfit, ml.totalProfit),
      WasteReduction(baseline.totalWaste, ml.totalWaste),
      ml.totalProfit - baseline.totalProfit)
  }

  /** With a non-zero baseline, the improvement percentage and the additional profit have the same sign. */
  lemma ImprovementAgreesWithAdditionalProfit(fs: Scenarios)
    requires BaselineOf(fs).totalProfit != 0.0
    ensures Compare(fs).profitImprovement > 0.0 <==> Compare(fs).additionalProfit > 0.0
    ensures Compare(fs).profitImprovement == 0.0 <==> Compare(fs).additionalProfit == 0.0
  {
  }

  /** The worked example of mixed key spellings: +150%, 60% less waste, 150000 more profit. */
  lemma MixedSpellingExample()
    ensures
      var fs := map[
        "Baseline" := map["Total Profit" := Num(-100000.0), "Total Waste" := Num(500.0),
                          "Total Stockouts" := Num(10.0), "Service Level" := Num(80.0)],
        "ML Prediction" := map["total_profit" := Num(50000.0), "total_waste" := Num(200.0),
                               "total_stockouts" := Num(5.0), "service_level" := Num(95.0)]];
      Compare(fs) == Comparison(150.0, 60.0, 150000.0)
  {
  }

  /** The advice label of the product table. */
  datatype Advice = TrustModel | AddBuffer | ManualReview

  function MaeAdvice(mae: real): (a: Advice)
    ensures a == TrustModel <==> mae < 5.0
    ensures a == AddBuffer <==> 5.0 <= mae < 10.0
    ensures a == ManualReview <==> 10.0 <= mae
  {
    if mae < 5.0 then TrustModel else if mae < 10.0 then AddBuffer else ManualReview
  }

  function Severity(a: Advice): nat
  {
    match a
    case TrustModel => 0
    case AddBuffer => 1
    case ManualReview => 2
  }

  /** A larger error never earns a milder label. */
  lemma AdviceMonotone(mae1: real, mae2: real)
    requires mae1 <= mae2
    ensures Severity(MaeAdvice(mae1)) <= Severity(MaeAdvice(mae2))
  {
  }

  /** One record of the product-performance response. */
  datatype ProductPerformance = ProductPerformance(product: string, avgActual: real, avgPredicted: real, mae: real)

  function AdviceList(perf: seq<ProductPerformance>): seq<(string, Advice)>
  {
    if perf == [] then [] else [(perf[0].product, MaeAdvice(perf[0].mae))] + AdviceList(perf[1..])
  }

  /** `productPerf.slice(0, 5)` with the advice of each row. */
  function AdviceRows(perf: seq<ProductPerformance>): seq<(string, Advice)>
  {
    AdviceList(perf[..Min(|perf|, 5)])
  }

  lemma {:induction false} AdviceListAt(perf: seq<ProductPerformance>)
    ensures |AdviceList(perf)| == |perf|
    ensures forall i :: 0 <= i < |perf| ==> AdviceList(perf)[i] == (perf[i].product, MaeAdvice(perf[i].mae))
  {
    if perf != [] {
      AdviceListAt(perf[1..]);
    }
  }

  /** The table lists at most the first five products, in the order received, each with its label. */
  lemma AdviceRowsAreFirstFive(perf: seq<ProductPerformance>)
    ensures |AdviceRows(perf)| == Min(|perf|, 5)
    ensures forall i :: 0 <= i < |AdviceRows(perf)| ==> AdviceRows(perf)[i] == (perf[i].product, MaeAdvice(perf[i].mae))
  {
    AdviceListAt(perf[..Min(|perf|, 5)]);
  }

  function Names(perf: seq<ProductPerformance>): (names: seq<string>)
    ensures |names| == |perf| && forall i :: 0 <= i < |perf| ==> names[i] == perf[i].product
  {
    if perf == [] then [] else [perf[0].product] + Names(perf[1..])
  }

  /** `productPerf.slice(0, 3)`: the first three names received. */
  function BestProducts(perf: seq<ProductPerformance>): (r: seq<string>)
    ensures |r| == Min(|perf|, 3)
    ensures forall i :: 0 <= i < |r| ==> r[i] == perf[i].product
  {
    Names(perf[..Min(|perf|, 3)])
  }

  /** `productPerf.slice(-3)`: the last three names received (all of them when fewer). */
  function WorstProducts(perf: seq<ProductPerformance>): (r: seq<string>)
    ensures |r| == Min(|perf|, 3)
    ensures forall i :: 0 <= i < |r| ==> r[i] == perf[|perf| - |r| + i].product
  {
    Names(perf[Max(|perf| - 3, 0)..])
  }

  /** A number as JavaScript computes it. */
  datatype JsNumber = Finite(v: real) | NaN | Infinity(negative: bool)

  function JsSub(a: JsNumber, b: JsNumber): JsNumber
  {
    match (a, b)
    case (Finite(x), Finite(y)) => Finite(x - y)
    case (Infinity(n), Finite(_)) => Infinity(n)
    case (Finite(_), Infinity(n)) => Infinity(!n)
    case (Infinity(n), Infinity(m)) => if n == m then NaN else Infinity(n)
    case _ => NaN
  }

  function JsMul(a: JsNumber, b: JsNumber): JsNumber
  {
    match (a, b)
    case (Finite(x), Finite(y)) => Finite(x * y)
    case (Infinity(n), Finite(y)) => if y == 0.0 then NaN else Infinity(n != (y < 0.0))
    case (Finite(x), Infinity(n)) => if x == 0.0 then NaN else Infinity(n != (x < 0.0))
    case (Infinity(n), Infinity(m)) => Infinity(n != m)
    case _ => NaN
  }

  function JsDiv(a: JsNumber, b: JsNumber): JsNumber
  {
    match (a, b)
    case (Finite(x), Finite(y)) =>
      if y != 0.0 then Finite(x / y) else if x == 0.0 then NaN else Infinity(x < 0.0)
    case (Infinity(n), Finite(y)) => Infinity(n != (y < 0.0))
    case (Finite(_), Infinity(_)) => Finite(0.0)
    case _ => NaN
  }

  function JsAbs(a: JsNumber): JsNumber
  {
    match a
    case Finite(x) => Finite(Abs(x))
    case Infinity(_) => Infinity(false)
    case NaN => NaN
  }

  /** `(within / total) * 100` of the accuracy cards: there is no guard against a zero total. */
  function AccuracyPercent(within: int, total: int): (p: JsNumber)
    ensures total == 0 ==> !p.Finite?
    ensures total != 0 ==> p.Finite? && p.v * total as real == within as real * 100.0
  {
    JsMul(JsDiv(Finite(within as real), Finite(total as real)), Finite(100.0))
  }

  /** With a positive total and a count not above it, the card shows a percentage in [0, 100]. */
  lemma AccuracyPercentInRange(within: int, total: int)
    requires 0 <= within <= total && total > 0
    ensures 0.0 <= AccuracyPercent(within, total).v <= 100.0
  {
    var p := AccuracyPercent(within, total).v;
    assert p * total as real == within as real * 100.0;
  }

  /** Nested counts give ordered percentages. */
  lemma AccuracyPercentMonotone(w1: int, w2: int, total: int)
    requires w1 <= w2 && total > 0
    ensures AccuracyPercent(w1, total).v <= AccuracyPercent(w2, total).v
  {
    var p1, p2 := AccuracyPercent(w1, total).v, AccuracyPercent(w2, total).v;
    if p1 > p2 {
      assert p1 * total as real > p2 * total as real;
    }
  }

  /**
   * Evaluating a member chain such as `fs.ML_Prediction.total_profit`:
   * reading a field of an undefined scenario throws a TypeError, which
   * aborts the whole template it sits in.
   */
  datatype Evaluation<T> = Threw | Value(value: T)

  /** `fs[name][field]` in arithmetic: undefined is NaN, null is 0; an undefined scenario throws. */
  function ReadNumber(fs: Scenarios, name: string, field: string): Evaluation<JsNumber>
  {
    if name !in fs then Threw
    else if field !in fs[name] then Value(NaN)
    else match fs[name][field]
      case Null => Value(Finite(0.0))
      case Num(x) => Value(Finite(x))
  }

  /** `fs[name][field].toFixed(1)`: the field itself is the receiver, so undefined or null throws too. */
  function ReadReceiver(fs: Scenarios, name: string, field: string): (e: Evaluation<JsNumber>)
    ensures e.Threw? <==> name !in fs || field !in fs[name] || fs[name][field].Null?
    ensures e.Value? ==> e == ReadNumber(fs, name, field)
  {
    if name !in fs || field !in fs[name] then Threw
    else match fs[name][field]
      case Null => Threw
      case Num(x) => Value(Finite(x))
  }

  /** The figures of the "Next Steps" and "Expected Outcomes" panels. */
  datatype RenderedFigures = RenderedFigures(
    potentialGains: JsNumber, profitImprovement: JsNumber, wasteReduction: JsNumber,
    serviceLevel: JsNumber, annualImpact: JsNumber)

  const Hundred := Finite(100.0)

  /**
   * The recommendations page as written: every figure reads
   * `financial_scenarios.ML_Prediction` and none is guarded. It throws
   * exactly when a scenario it reads is missing or the ML service level
   * is not a number.
   */
  function RecommendationFiguresAsWritten(fs: Scenarios, testSize: int): (e: Evaluation<RenderedFigures>)
    ensures e.Threw? <==>
      "Perfect" !in fs || "ML_Prediction" !in fs || "Baseline" !in fs
      || ReadReceiver(fs, "ML_Prediction", "service_level").Threw?
    ensures e.Value? ==> e.value.serviceLevel == ReadReceiver(fs, "ML_Prediction", "service_level").value
  {
    var perfect := ReadNumber(fs, "Perfect", "total_profit");
    var mlProfit := ReadNumber(fs, "ML_Prediction", "total_profit");
    var baseProfit := ReadNumber(fs, "Baseline", "total_profit");
    var baseWaste := ReadNumber(fs, "Baseline", "total_waste");
    var mlWaste := ReadNumber(fs, "ML_Prediction", "total_waste");
    var mlService := ReadReceiver(fs, "ML_Prediction", "service_level");
    if perfect.Threw? || mlProfit.Threw? || baseProfit.Threw? || baseWaste.Threw? || mlWaste.Threw? || mlService.Threw?
    then Threw
    else
      var p, m, b := perfect.value, mlProfit.value, baseProfit.value;
      Value(RenderedFigures(
        JsMul(JsDiv(JsSub(p, m), JsAbs(b)), Hundred),
        JsMul(JsDiv(JsSub(m, b), JsAbs(b)), Hundred),
        JsMul(JsDiv(JsSub(baseWaste.value, mlWaste.value), baseWaste.value), Hundred),
        mlService.value,
        JsMul(JsDiv(m, Finite(testSize as real)), Finite(365.0))))
  }

  /** Without a scenario spelled "ML_Prediction" the recommendations page is never rendered. */
  lemma RecommendationsThrowWithoutUnderscoreKey(fs: Scenarios, testSize: int)
    requires "ML_Prediction" !in fs
    ensures RecommendationFiguresAsWritten(fs, testSize) == Threw
  {
  }

  /** Even with that spelling, a missing or null service level throws at its `toFixed`. */
  lemma RecommendationsThrowWithoutServiceLevel(fs: Scenarios, testSize: int)
    requires "ML_Prediction" in fs
    requires "service_level" !in fs["ML_Prediction"] || fs["ML_Prediction"]["service_level"].Null?
    ensures RecommendationFiguresAsWritten(fs, testSize) == Threw
  {
  }

  /**
   * Even with that spelling, a zero baseline profit makes the potential
   * gains and the profit improvement non-finite, and a zero baseline
   * waste the waste reduction: none of them is guarded.
   */
  lemma RecommendationsZeroBaselineNotFinite(fs: Scenarios, testSize: int)
    requires "Perfect" in fs && "ML_Prediction" in fs
    requires ReadNumber(fs, "Baseline", "total_profit") == Value(Finite(0.0))
    requires ReadNumber(fs, "Baseline", "total_waste") == Value(Finite(0.0))
    requires ReadReceiver(fs, "ML_Prediction", "service_level").Value?
    ensures RecommendationFiguresAsWritten(fs, testSize).Value?
    ensures !RecommendationFiguresAsWritten(fs, testSize).value.potentialGains.Finite?
    ensures !RecommendationFiguresAsWritten(fs, testSize).value.profitImprovement.Finite?
    ensures !RecommendationFiguresAsWritten(fs, testSize).value.wasteReduction.Finite?
  {
  }

  /**
   * Where the guards of the financial page would not fire (a non-zero
   * baseline, a non-empty test set), the unguarded figures are the guarded
   * ones: the profit improvement, the waste reduction and the projection.
   */
  lemma AsWrittenAgreesAwayFromZero(fs: Scenarios, testSize: int, b: real, m: real, bw: real, mw: real)
    requires "Perfect" in fs && ReadReceiver(fs, "ML_Prediction", "service_level").Value?
    requires ReadNumber(fs, "Baseline", "total_profit") == Value(Finite(b)) && b != 0.0
    requires ReadNumber(fs, "ML_Prediction", "total_profit") == Value(Finite(m))
    requires ReadNumber(fs, "Baseline", "total_waste") == Value(Finite(bw)) && bw != 0.0
    requires ReadNumber(fs, "ML_Prediction", "total_waste") == Value(Finite(mw))
    requires testSize != 0
    ensures RecommendationFiguresAsWritten(fs, testSize).Value?
    ensures RecommendationFiguresAsWritten(fs, testSize).value.profitImprovement == Finite(ProfitImprovement(b, m))
    ensures RecommendationFiguresAsWritten(fs, testSize).value.wasteReduction == Finite(WasteReduction(bw, mw))
    ensures RecommendationFiguresAsWritten(fs, testSize).value.annualImpact == Finite(AnnualProjection(m, testSize).value)
  {
  }

  /** The projected yearly profit: profit per test row times 365, unavailable for an empty test set. */
  function AnnualProjection(profit: real, testSize: int): (r: Option<real>)
    ensures r.None? <==> testSize == 0
    ensures r.Some? ==> r.value * testSize as real == profit * 365.0
  {
    if testSize == 0 then None else Some(profit / testSize as real * 365.0)
  }

  /** The profit still missing to perfect forecasting, in percent of the baseline's magnitude. */
  function GapToPerfect(fs: Scenarios): (r: Option<real>)
    ensures r.None? <==> "Perfect" !in fs
    ensures r.Some? ==> r.value == ProfitImprovement(BaselineOf(fs).totalProfit, Normalize(fs["Perfect"]).totalProfit)
                                  - ProfitImprovement(BaselineOf(fs).totalProfit, MlOf(fs).totalProfit)
  {
    if "Perfect" !in fs then None
    else
      var b := BaselineOf(fs).totalProfit;
      var gap := Normalize(fs["Perfect"]).totalProfit - MlOf(fs).totalProfit;
      Some(if b != 0.0 then gap / Abs(b) * 100.0 else 0.0)
  }

  /** The recommendations figures read the way the financial page reads its scenarios. */
  datatype Outcomes = Outcomes(
    potentialGains: Option<real>, profitImprovement: real, wasteReduction: real,
    serviceLevel: real, annualImpact: Option<real>)

  function RecommendationFigures(fs: Scenarios, testSize: int): (o: Outcomes)
    ensures o.profitImprovement == Compare(fs).profitImprovement
    ensures o.wasteReduction == Compare(fs).wasteReduction
    ensures o.serviceLevel == MlOf(fs).serviceLevel
    ensures o.potentialGains.None? <==> "Perfect" !in fs
    ensures o.annualImpact.None? <==> testSize == 0
  {
    var baseline, ml := BaselineOf(fs), MlOf(fs);
    Outcomes(
      GapToPerfect(fs),
      ProfitImprovement(baseline.totalProfit, ml.totalProfit),
      WasteReduction(baseline.totalWaste, ml.totalWaste),
      ml.serviceLevel,
      AnnualProjection(ml.totalProfit, testSize))
  }
}
