/**
 * The table-driven analyzer of app_optimized.py: a benchmark table of
 * (current ratio, debt-to-equity, profit margin %) triples, a table of
 * score weights, three independent score rules, the grade and risk level,
 * and the benchmark recommendations over a ratio triple.
 */
module OptimizedApp {
  import opened Common

  // ---------------------------------------------------------------------
  // Tables (BENCHMARKS, SCORE_WEIGHTS)

  /** A BENCHMARKS entry: (current_ratio, debt_equity, profit_margin %). */
  type Triple = (real, real, real)

  function Benchmark(businessType: string): Option<Triple>
  {
    if businessType == "manufacturing" then Some((1.5, 0.6, 8.0))
    else if businessType == "retail" then Some((1.2, 0.8, 5.0))
    else if businessType == "services" then Some((1.3, 0.5, 12.0))
    else if businessType == "agriculture" then Some((1.4, 0.7, 6.0))
    else if businessType == "logistics" then Some((1.1, 0.9, 4.0))
    else if businessType == "ecommerce" then Some((1.6, 0.4, 10.0))
    else None
  }

  /** `BENCHMARKS.get(business_type, BENCHMARKS['services'])` */
  function BenchmarkFor(businessType: string): (b: Triple)
    ensures Benchmark(businessType).Some? ==> b == Benchmark(businessType).value
    ensures Benchmark(businessType).None? ==> b == Benchmark("services").value
    ensures 1.1 <= b.0 <= 1.6 && 0.4 <= b.1 <= 0.9 && 4.0 <= b.2 <= 12.0
  {
    match Benchmark(businessType)
    case Some(t) => t
    case None => (1.3, 0.5, 12.0)
  }

  datatype ScoredRatio = CurrentRatioRule | ProfitMarginRule | DebtRatioRule

  datatype Weight = Weight(threshold: real, penalty: int)

  function ScoreWeight(r: ScoredRatio): Weight
  {
    match r
    case CurrentRatioRule => Weight(1.0, 30)
    case ProfitMarginRule => Weight(5.0, 25)
    case DebtRatioRule => Weight(1.0, 20)
  }

  // ---------------------------------------------------------------------
  // Score and grade (calculate_score, get_grade)

  /** The score before `max(score, 0)`: each rule independently takes its penalty. */
  function Score(currentRatio: real, profitMargin: real, debtRatio: real): int
  {
    100 - (if currentRatio < 1.0 then 30 else 0)
      - (if profitMargin < 5.0 then 25 else 0)
      - (if debtRatio > 1.0 then 20 else 0)
  }

  /**
   * Three independent penalties of 30, 25 and 20 leave one of eight scores,
   * never below 25, so `max(score, 0)` never binds.
   */
  method CalculateScore(currentRatio: real, profitMargin: real, debtRatio: real) returns (score: int)
    ensures score == Score(currentRatio, profitMargin, debtRatio)
    ensures score in {100, 80, 75, 70, 55, 50, 45, 25}
  {
    score := 100;
    if currentRatio < ScoreWeight(CurrentRatioRule).threshold {
      score := score - ScoreWeight(CurrentRatioRule).penalty;
    }
    if profitMargin < ScoreWeight(ProfitMarginRule).threshold {
      score := score - ScoreWeight(ProfitMarginRule).penalty;
    }
    if debtRatio > ScoreWeight(DebtRatioRule).threshold {
      score := score - ScoreWeight(DebtRatioRule).penalty;
    }
    score := if score >= 0 then score else 0;
  }

  /** Better ratios never lower the score. */
  lemma ScoreMonotone(cr1: real, pm1: real, dr1: real, cr2: real, pm2: real, dr2: real)
    requires cr1 <= cr2 && pm1 <= pm2 && dr2 <= dr1
    ensures Score(cr1, pm1, dr1) <= Score(cr2, pm2, dr2)
  {
  }

  // ---------------------------------------------------------------------
  // Recommendations (generate_recommendations)

  datatype OptimizedAdvice = WorkingCapital | CostReduction | DebtRestructuring

  function AdviceText(a: OptimizedAdvice): string
  {
    match a
    case WorkingCapital => "Optimize working capital - reduce inventory or accelerate collections"
    case CostReduction => "Implement cost reduction strategies - review pricing and expenses"
    case DebtRestructuring => "Consider debt restructuring or equity financing"
  }

  function AdviceOrder(a: OptimizedAdvice): nat
  {
    match a
    case WorkingCapital => 0
    case CostReduction => 1
    case DebtRestructuring => 2
  }

  /**
   * The rules compare `ratios[0]`, `ratios[2]` and `ratios[1]` with the same
   * positions of the benchmark, in that order.
   */
  function Recommendations(ratios: Triple, businessType: string): (recs: seq<OptimizedAdvice>)
    ensures forall i, j :: 0 <= i < j < |recs| ==> AdviceOrder(recs[i]) < AdviceOrder(recs[j])
    ensures WorkingCapital in recs <==> ratios.0 < BenchmarkFor(businessType).0
    ensures CostReduction in recs <==> ratios.2 < BenchmarkFor(businessType).2
    ensures DebtRestructuring in recs <==> ratios.1 > BenchmarkFor(businessType).1
  {
    var b := BenchmarkFor(businessType);
    (if ratios.0 < b.0 then [WorkingCapital] else [])
      + (if ratios.2 < b.2 then [CostReduction] else [])
      + (if ratios.1 > b.1 then [DebtRestructuring] else [])
  }

  method GenerateRecommendations(ratios: Triple, businessType: string) returns (recs: seq<OptimizedAdvice>)
    ensures recs == Recommendations(ratios, businessType)
  {
    recs := [];
    var benchmark := BenchmarkFor(businessType);
    if ratios.0 < benchmark.0 {
      recs := recs + [WorkingCapital];
    }
    if ratios.2 < benchmark.2 {
      recs := recs + [CostReduction];
    }
    if ratios.1 > benchmark.1 {
      recs := recs + [DebtRestructuring];
    }
  }

  /**
   * The route packs its ratios as (current, debt, profit), the layout of a
   * BENCHMARKS entry, so each ratio meets its own benchmark: the current
   * ratio the current-ratio column, the margin the margin column, the debt
   * ratio the debt column.
   */
  lemma TupleLayoutAgrees(currentRatio: real, profitMargin: real, debtRatio: real, businessType: string)
    ensures var recs := Recommendations((currentRatio, debtRatio, profitMargin), businessType);
      var b := BenchmarkFor(businessType);
      (WorkingCapital in recs <==> currentRatio < b.0) &&
      (CostReduction in recs <==> profitMargin < b.2) &&
      (DebtRestructuring in recs <==> debtRatio > b.1)
  {
  }

  // ---------------------------------------------------------------------
  // The analyze route

  datatype AnalyzeResult = AnalyzeResult(
    creditScore: int,
    grade: Grade,
    currentRatio: real,
    profitMargin: real,
    debtRatio: real,
    riskLevel: Level,
    recommendations: seq<OptimizedAdvice>)

  const RequestKeys: seq<string> := ["assets", "liabilities", "profit", "revenue", "debt", "equity"]

  /**
   * `d['assets'] / max(d['liabilities'], 1)` and the rest; a missing field is
   * a KeyError that the route turns into an error response.
   */
  method Analyze(d: Statement, businessType: Option<string>) returns (r: Result<AnalyzeResult>)
    ensures r.Err? <==> (exists k :: k in RequestKeys && k !in d) || businessType.None?
    ensures r.Ok? ==> forall k :: k in RequestKeys ==> k in d
    ensures r.Ok? ==>
      var cr := d["assets"] / Floor1(d["liabilities"]);
      var pm := d["profit"] / Floor1(d["revenue"]) * 100.0;
      var dr := d["debt"] / Floor1(d["equity"]);
      r.value.currentRatio == cr && r.value.profitMargin == pm && r.value.debtRatio == dr &&
      r.value.creditScore == Score(cr, pm, dr) &&
      r.value.grade == CreditGrade(r.value.creditScore) &&
      r.value.riskLevel == RiskLevel(r.value.creditScore) &&
      r.value.recommendations == Recommendations((cr, dr, pm), businessType.value)
  {
    var missing := FirstMissing(d, RequestKeys);
    if missing.Some? {
      return Err(MissingKey(missing.value));
    }
    if businessType.None? {
      return Err(MissingKey("business_type"));
    }

    var currentRatio := d["assets"] / Floor1(d["liabilities"]);
    var profitMargin := d["profit"] / Floor1(d["revenue"]) * 100.0;
    var debtRatio := d["debt"] / Floor1(d["equity"]);

    var score := CalculateScore(currentRatio, profitMargin, debtRatio);
    var grade := CreditGrade(score);
    var riskLevel := RiskLevel(score);

    var recommendations := GenerateRecommendations((currentRatio, debtRatio, profitMargin), businessType.value);
    r := Ok(AnalyzeResult(score, grade, currentRatio, profitMargin, debtRatio, riskLevel, recommendations));
  }
}
