/**
 * The advanced analysis engine: working-capital day counts, the rule-based
 * risk profile, the compound-growth fallback forecast, cost-optimisation
 * advice, the 0-100 health score and the investor report tags.
 *
 * Amounts are reals. The random industry-risk draw is an input: one value in
 * [0.1, 0.8] per weighted risk factor of the industry.
 */
module AdvancedAnalyzer {
  import opened Common

  const Industries: set<string> :=
    {"manufacturing", "retail", "services", "agriculture", "logistics", "ecommerce"}

  // ---------------------------------------------------------------------
  // Working capital (calculate_working_capital_metrics)

  /**
   * DSO, DIO, DPO and the cash conversion cycle. Each day count is present
   * exactly when both of its operands are; the divisions are unguarded, so a
   * zero revenue or cost of goods sold behind a present numerator raises.
   */
  function WorkingCapitalMetrics(fd: Statement): (r: Result<Statement>)
    ensures r.Err? <==>
      ("accounts_receivable" in fd && "revenue" in fd && fd["revenue"] == 0.0) ||
      (("inventory" in fd || "accounts_payable" in fd) &&
       "cost_of_goods_sold" in fd && fd["cost_of_goods_sold"] == 0.0)
    ensures r.Ok? ==> r.value.Keys <= {"dso", "dio", "dpo", "cash_conversion_cycle"}
    ensures r.Ok? ==> ("dso" in r.value <==> "accounts_receivable" in fd && "revenue" in fd)
    ensures r.Ok? ==> ("dio" in r.value <==> "inventory" in fd && "cost_of_goods_sold" in fd)
    ensures r.Ok? ==> ("dpo" in r.value <==> "accounts_payable" in fd && "cost_of_goods_sold" in fd)
    ensures r.Ok? ==>
      ("cash_conversion_cycle" in r.value <==> "dso" in r.value && "dio" in r.value && "dpo" in r.value)
  {
    if "accounts_receivable" in fd && "revenue" in fd && fd["revenue"] == 0.0 then
      Err(ZeroDivision("revenue"))
    else if ("inventory" in fd || "accounts_payable" in fd) &&
            "cost_of_goods_sold" in fd && fd["cost_of_goods_sold"] == 0.0 then
      Err(ZeroDivision("cost_of_goods_sold"))
    else
      var m1 := if "accounts_receivable" in fd && "revenue" in fd
                then map["dso" := fd["accounts_receivable"] / fd["revenue"] * 365.0] else map[];
      var m2 := if "inventory" in fd && "cost_of_goods_sold" in fd
                then m1["dio" := fd["inventory"] / fd["cost_of_goods_sold"] * 365.0] else m1;
      var m3 := if "accounts_payable" in fd && "cost_of_goods_sold" in fd
                then m2["dpo" := fd["accounts_payable"] / fd["cost_of_goods_sold"] * 365.0] else m2;
      Ok(if "dso" in m3 && "dio" in m3 && "dpo" in m3
         then m3["cash_conversion_cycle" := m3["dso"] + m3["dio"] - m3["dpo"]] else m3)
  }

  /** Each day count is its balance over its flow, times 365, and CCC = DSO + DIO - DPO. */
  lemma WorkingCapitalValues(fd: Statement)
    requires WorkingCapitalMetrics(fd).Ok?
    ensures var m := WorkingCapitalMetrics(fd).value;
      && ("dso" in m ==> fd["revenue"] != 0.0 && m["dso"] == fd["accounts_receivable"] / fd["revenue"] * 365.0)
      && ("dio" in m ==> fd["cost_of_goods_sold"] != 0.0 &&
                         m["dio"] == fd["inventory"] / fd["cost_of_goods_sold"] * 365.0)
      && ("dpo" in m ==> fd["cost_of_goods_sold"] != 0.0 &&
                         m["dpo"] == fd["accounts_payable"] / fd["cost_of_goods_sold"] * 365.0)
      && ("cash_conversion_cycle" in m ==> m["cash_conversion_cycle"] == m["dso"] + m["dio"] - m["dpo"])
  {
  }

  /** Receivables 50000 on revenue 500000 and the rest of the worked example. */
  lemma WorkingCapitalExample()
    ensures var fd := map["accounts_receivable" := 50000.0, "revenue" := 500000.0,
                          "inventory" := 80000.0, "cost_of_goods_sold" := 400000.0,
                          "accounts_payable" := 60000.0];
      WorkingCapitalMetrics(fd) == Ok(map["dso" := 36.5, "dio" := 73.0, "dpo" := 54.75,
                                          "cash_conversion_cycle" := 54.75])
  {
  }

  // ---------------------------------------------------------------------
  // Risk assessment (assess_financial_risks, _get_risk_grade)

  /** `self.risk_weights[industry].items()`, empty for an industry not in the table. */
  function RiskWeights(industry: string): (w: seq<(string, real)>)
    ensures industry in Industries <==> |w| == 3
    ensures industry !in Industries <==> w == []
    ensures forall i :: 0 <= i < |w| ==> 0.0 < w[i].1 <= 0.4
  {
    if industry == "manufacturing" then
      [("inventory_risk", 0.3), ("supply_chain_risk", 0.4), ("market_risk", 0.3)]
    else if industry == "retail" then
      [("inventory_risk", 0.4), ("seasonal_risk", 0.3), ("competition_risk", 0.3)]
    else if industry == "services" then
      [("client_concentration_risk", 0.4), ("talent_risk", 0.3), ("market_risk", 0.3)]
    else if industry == "agriculture" then
      [("weather_risk", 0.4), ("commodity_risk", 0.3), ("seasonal_risk", 0.3)]
    else if industry == "logistics" then
      [("fuel_risk", 0.3), ("regulatory_risk", 0.3), ("competition_risk", 0.4)]
    else if industry == "ecommerce" then
      [("technology_risk", 0.3), ("competition_risk", 0.4), ("regulatory_risk", 0.3)]
    else []
  }

  function WeightSum(w: seq<(string, real)>): real
  {
    if w == [] then 0.0 else WeightSum(w[..|w| - 1]) + w[|w| - 1].1
  }

  /** The weights of every known industry add up to one. */
  lemma KnownWeightsSumToOne(industry: string)
    requires industry in Industries
    ensures WeightSum(RiskWeights(industry)) == 1.0
  {
    var w := RiskWeights(industry);
    assert w[..1][..0] == [];
    assert WeightSum(w[..1]) == w[0].1;
    assert w[..2][..1] == w[..1];
    assert WeightSum(w[..2]) == w[0].1 + w[1].1;
    assert w[..2] == w[..|w| - 1];
    assert WeightSum(w) == w[0].1 + w[1].1 + w[2].1;
  }

  /** A draw of `uniform(0.1, 0.8)` as the model receives it. */
  predicate ValidDraws(draws: seq<real>)
  {
    forall i :: 0 <= i < |draws| ==> 0.1 <= draws[i] <= 0.8
  }

  /** `np.random.uniform(0.1, 0.8) * weight * 20` */
  function Contribution(draw: real, weight: real): real
  {
    draw * weight * 20.0
  }

  lemma ContributionBounds(draw: real, weight: real)
    requires 0.1 <= draw <= 0.8 && 0.0 < weight <= 0.4
    ensures 0.0 < Contribution(draw, weight) <= 16.0 * weight <= 6.4
  {
    assert draw * weight <= 0.8 * weight;
  }

  /** Sum of the industry contributions, in the order the loop adds them. */
  function IndustryTotal(w: seq<(string, real)>, draws: seq<real>): real
    requires |draws| == |w|
  {
    if w == [] then 0.0
    else IndustryTotal(w[..|w| - 1], draws[..|w| - 1]) + Contribution(draws[|w| - 1], w[|w| - 1].1)
  }

  lemma {:induction false} IndustryTotalBounds(w: seq<(string, real)>, draws: seq<real>)
    requires |draws| == |w| && ValidDraws(draws)
    requires forall i :: 0 <= i < |w| ==> 0.0 < w[i].1 <= 0.4
    ensures 0.0 <= IndustryTotal(w, draws) <= 16.0 * WeightSum(w)
  {
    if w != [] {
      var n := |w| - 1;
      IndustryTotalBounds(w[..n], draws[..n]);
      ContributionBounds(draws[n], w[n].1);
    }
  }

  datatype Band = Band(level: Level, points: real)

  function LiquidityBand(currentRatio: real): Band
  {
    if currentRatio < 1.0 then Band(High, 30.0)
    else if currentRatio < 1.5 then Band(Medium, 15.0)
    else Band(Low, 5.0)
  }

  function CreditBand(debtToEquity: real): Band
  {
    if debtToEquity > 2.0 then Band(High, 25.0)
    else if debtToEquity > 1.0 then Band(Medium, 12.0)
    else Band(Low, 3.0)
  }

  function OperationalBand(profitMargin: real): Band
  {
    if profitMargin < 0.0 then Band(High, 20.0)
    else if profitMargin < 0.05 then Band(Medium, 10.0)
    else Band(Low, 2.0)
  }

  /** The three ratios as the risk assessment reads them: missing keys count as 0. */
  function RiskCurrentRatio(fd: Statement): real
  {
    Get(fd, "current_assets", 0.0) / Floor1(Get(fd, "current_liabilities", 1.0))
  }

  function RiskDebtToEquity(fd: Statement): real
  {
    Get(fd, "total_debt", 0.0) / Floor1(Get(fd, "total_equity", 1.0))
  }

  function RiskProfitMargin(fd: Statement): real
  {
    Get(fd, "net_income", 0.0) / Floor1(Get(fd, "revenue", 1.0))
  }

  /** The rule-based part of the score, before the industry terms. */
  function BaseRiskScore(fd: Statement): real
  {
    LiquidityBand(RiskCurrentRatio(fd)).points + CreditBand(RiskDebtToEquity(fd)).points
      + OperationalBand(RiskProfitMargin(fd)).points
  }

  /** `risk_score` as the source accumulates it, before `min(risk_score, 100)`. */
  function RawRiskScore(fd: Statement, industry: string, draws: seq<real>): real
    requires |draws| == |RiskWeights(industry)|
  {
    BaseRiskScore(fd) + IndustryTotal(RiskWeights(industry), draws)
  }

  /** `_get_risk_grade` */
  function RiskGrade(score: real): Grade
  {
    if score <= 20.0 then A else if score <= 40.0 then B else if score <= 60.0 then C else D
  }

  /** A higher risk score never earns a better risk grade. */
  lemma RiskGradeMonotone(s1: real, s2: real)
    requires s1 <= s2
    ensures Rank(RiskGrade(s1)) <= Rank(RiskGrade(s2))
  {
  }

  /** Grading the unclamped score gives the grade of the clamped one. */
  lemma RiskGradeIgnoresClamp(s: real)
    ensures RiskGrade(Min(s, 100.0)) == RiskGrade(s)
  {
  }

  datatype RiskProfile = RiskProfile(
    liquidityRisk: Level,
    creditRisk: Level,
    operationalRisk: Level,
    industryRisks: seq<(string, Level)>,
    overallRiskScore: real,
    riskGrade: Grade)

  /**
   * The industry loop of the risk assessment: every weighted draw is added to
   * the score, and every factor is reported Low since no term exceeds 10.
   */
  method AddIndustryRisks(w: seq<(string, real)>, draws: seq<real>, base: real)
    returns (industryRisks: seq<(string, Level)>, riskScore: real)
    requires |draws| == |w| && ValidDraws(draws)
    requires forall i :: 0 <= i < |w| ==> 0.0 < w[i].1 <= 0.4
    ensures riskScore == base + IndustryTotal(w, draws)
    ensures |industryRisks| == |w|
    ensures forall k :: 0 <= k < |w| ==> industryRisks[k] == (w[k].0, Low)
  {
    riskScore := base;
    industryRisks := [];
    var i := 0;
    while i < |w|
      invariant 0 <= i <= |w|
      invariant riskScore == base + IndustryTotal(w[..i], draws[..i])
      invariant |industryRisks| == i
      invariant forall k :: 0 <= k < i ==> industryRisks[k] == (w[k].0, Low)
    {
      var industryRiskScore := draws[i] * w[i].1 * 20.0;
      ContributionBounds(draws[i], w[i].1);
      assert w[..i + 1][..i] == w[..i] && draws[..i + 1][..i] == draws[..i];
      riskScore := riskScore + industryRiskScore;
      industryRisks := industryRisks + [(w[i].0, if industryRiskScore > 10.0 then Medium else Low)];
      i := i + 1;
    }
    assert w[..i] == w && draws[..i] == draws;
  }

  /**
   * The risk dictionary: three rule bands, one entry per industry risk factor,
   * the score clamped at 100 and the grade of the unclamped score.
   */
  method AssessFinancialRisks(fd: Statement, industry: string, draws: seq<real>)
    returns (p: RiskProfile)
    requires |draws| == |RiskWeights(industry)| && ValidDraws(draws)
    ensures p.liquidityRisk == LiquidityBand(RiskCurrentRatio(fd)).level
    ensures p.creditRisk == CreditBand(RiskDebtToEquity(fd)).level
    ensures p.operationalRisk == OperationalBand(RiskProfitMargin(fd)).level
    ensures |p.industryRisks| == |RiskWeights(industry)|
    ensures forall i :: 0 <= i < |p.industryRisks| ==>
      p.industryRisks[i] == (RiskWeights(industry)[i].0, Low)
    ensures p.overallRiskScore == Min(RawRiskScore(fd, industry, draws), 100.0)
    ensures p.riskGrade == RiskGrade(RawRiskScore(fd, industry, draws))
    ensures 0.0 <= p.overallRiskScore <= 100.0
  {
    var riskScore := 0.0;

    var cr := Get(fd, "current_assets", 0.0) / Floor1(Get(fd, "current_liabilities", 1.0));
    var liquidity: Level;
    if cr < 1.0 {
      liquidity := High;
      riskScore := riskScore + 30.0;
    } else if cr < 1.5 {
      liquidity := Medium;
      riskScore := riskScore + 15.0;
    } else {
      liquidity := Low;
      riskScore := riskScore + 5.0;
    }

    var de := Get(fd, "total_debt", 0.0) / Floor1(Get(fd, "total_equity", 1.0));
    var credit: Level;
    if de > 2.0 {
      credit := High;
      riskScore := riskScore + 25.0;
    } else if de > 1.0 {
      credit := Medium;
      riskScore := riskScore + 12.0;
    } else {
      credit := Low;
      riskScore := riskScore + 3.0;
    }

    var pm := Get(fd, "net_income", 0.0) / Floor1(Get(fd, "revenue", 1.0));
    var operational: Level;
    if pm < 0.0 {
      operational := High;
      riskScore := riskScore + 20.0;
    } else if pm < 0.05 {
      operational := Medium;
      riskScore := riskScore + 10.0;
    } else {
      operational := Low;
      riskScore := riskScore + 2.0;
    }

    assert riskScore == BaseRiskScore(fd);
    var industryRisks;
    industryRisks, riskScore := AddIndustryRisks(RiskWeights(industry), draws, riskScore);
    IndustryTotalBounds(RiskWeights(industry), draws);

    p := RiskProfile(liquidity, credit, operational, industryRisks,
                     Min(riskScore, 100.0), RiskGrade(riskScore));
  }

  /**
   * The raw score lies in [10, 91]: the rule bands give 10 to 75 and the
   * industry terms at most 16 in all, so `min(risk_score, 100)` never binds.
   */
  lemma RiskScoreNeverClamped(fd: Statement, industry: string, draws: seq<real>)
    requires |draws| == |RiskWeights(industry)| && ValidDraws(draws)
    ensures 10.0 <= RawRiskScore(fd, industry, draws) <= 91.0
    ensures Min(RawRiskScore(fd, industry, draws), 100.0) == RawRiskScore(fd, industry, draws)
  {
    var w := RiskWeights(industry);
    IndustryTotalBounds(w, draws);
    if industry in Industries {
      KnownWeightsSumToOne(industry);
    }
  }

  /** An industry outside the table adds no risk keys and no score. */
  lemma UnknownIndustryAddsNothing(fd: Statement, industry: string)
    requires industry !in Industries
    ensures RiskWeights(industry) == []
    ensures RawRiskScore(fd, industry, []) == BaseRiskScore(fd)
  {
  }

  /** The liquidity bands at the worked points 0.9, 1.2 and 2.0. */
  lemma LiquidityBandExamples()
    ensures LiquidityBand(0.9).level == High
    ensures LiquidityBand(1.2).level == Medium
    ensures LiquidityBand(2.0).level == Low
  {
  }

  // ---------------------------------------------------------------------
  // Forecasting (forecast_financial_metrics, _generate_simple_forecast)

  datatype Forecast = Forecast(predictions: seq<real>, confidence: seq<real>)

  type Forecasts = map<string, Forecast>

  const TrackedMetrics: seq<string> := ["revenue", "net_income", "cash_flow"]

  function Pow(x: real, n: nat): real
  {
    if n == 0 then 1.0 else x * Pow(x, n - 1)
  }

  /** `range(1, periods + 1)` has no elements when periods is not positive. */
  function Horizon(periods: int): nat
  {
    if periods > 0 then periods else 0
  }

  /** `last * (1 + 0.05) ** i` */
  function Grown(last: real, i: nat): real
  {
    last * Pow(1.05, i)
  }

  /** `[last * 1.05 ** i for i in 1..periods]` */
  function Projection(last: real, n: nat): (r: seq<real>)
    ensures |r| == n
  {
    seq(n, i requires 0 <= i < n => Grown(last, i + 1))
  }

  /** The fallback forecast for every tracked metric present in the last entry. */
  function SimpleForecast(history: seq<Statement>, periods: int): Forecasts
  {
    var n := Horizon(periods);
    map m | m in TrackedMetrics && |history| > 0 && m in history[|history| - 1] ::
      Forecast(Projection(history[|history| - 1][m], n), seq(n, _ => 0.7))
  }

  /** The projection grows by exactly five percent from one period to the next. */
  lemma ProjectionRecurrence(last: real, n: nat, i: nat)
    requires 0 < n && i + 1 < n
    ensures Projection(last, n)[0] == last * 1.05
    ensures Projection(last, n)[i + 1] == Projection(last, n)[i] * 1.05
  {
    var p := Projection(last, n);
    assert Pow(1.05, 1) == 1.05 * Pow(1.05, 0);
    assert p[i + 1] == last * (1.05 * Pow(1.05, i + 1));
    assert p[i] == last * Pow(1.05, i + 1);
  }

  /** Last revenue 100000 over three periods gives 105000, 110250, 115762.5. */
  lemma ProjectionExample()
    ensures Projection(100000.0, 3) == [105000.0, 110250.0, 115762.5]
  {
    var p := Projection(100000.0, 3);
    assert Pow(1.05, 1) == 1.05;
    assert Pow(1.05, 2) == 1.1025;
    assert Pow(1.05, 3) == 1.157625;
    assert p[0] == 105000.0 && p[1] == 110250.0 && p[2] == 115762.5;
  }

  lemma ProjectionSnoc(last: real, n: nat)
    ensures Projection(last, n + 1) == Projection(last, n) + [Grown(last, n + 1)]
  {
    var a := Projection(last, n + 1);
    var b := Projection(last, n) + [Grown(last, n + 1)];
    forall k | 0 <= k < n + 1
      ensures a[k] == b[k]
    {
      if k < n {
        assert b[k] == Projection(last, n)[k];
      }
    }
  }

  /** The loop of `_generate_simple_forecast` for one metric. */
  method ProjectGrowth(last: real, periods: int) returns (predictions: seq<real>)
    ensures predictions == Projection(last, Horizon(periods))
  {
    var growthRate := 0.05;
    predictions := [];
    var i := 1;
    var factor := 1.0 + growthRate;
    while i <= periods
      invariant 1 <= i <= Horizon(periods) + 1
      invariant factor == Pow(1.05, i)
      invariant predictions == Projection(last, i - 1)
    {
      ProjectionSnoc(last, i - 1);
      assert last * factor == Grown(last, i);
      predictions := predictions + [last * factor];
      factor := factor * (1.0 + growthRate);
      i := i + 1;
    }
  }

  /** `_generate_simple_forecast` */
  method GenerateSimpleForecast(history: seq<Statement>, periods: int) returns (f: Forecasts)
    ensures f == SimpleForecast(history, periods)
    ensures forall m :: m in f <==> m in TrackedMetrics && |history| > 0 && m in history[|history| - 1]
  {
    var n := Horizon(periods);
    f := map[];
    var k := 0;
    while k < |TrackedMetrics|
      invariant 0 <= k <= |TrackedMetrics|
      invariant f == map m | m in TrackedMetrics[..k] && |history| > 0 && m in history[|history| - 1] ::
        Forecast(Projection(history[|history| - 1][m], n), seq(n, _ => 0.7))
    {
      var metric := TrackedMetrics[k];
      if |history| > 0 && metric in history[|history| - 1] {
        var predictions := ProjectGrowth(history[|history| - 1][metric], periods);
        f := f[metric := Forecast(predictions, seq(n, _ => 0.7))];
      }
      k := k + 1;
    }
    assert TrackedMetrics[..k] == TrackedMetrics;
  }

  /** The outcome of `forecast_financial_metrics`. */
  datatype ForecastOutcome =
    | SimpleTrend(forecasts: Forecasts)
    | RegressionModel  // six or more periods: the random-forest path, not modelled

  method ForecastFinancialMetrics(history: seq<Statement>, periods: int) returns (o: ForecastOutcome)
    ensures o.SimpleTrend? <==> |history| < 6
    ensures o.SimpleTrend? ==> o.forecasts == SimpleForecast(history, periods)
  {
    if |history| < 6 {
      var f := GenerateSimpleForecast(history, periods);
      o := SimpleTrend(f);
    } else {
      o := RegressionModel;
    }
  }

  /** An empty history forecasts nothing; a short one only the metrics of its last entry. */
  lemma SimpleForecastShape(history: seq<Statement>, periods: int)
    ensures history == [] ==> SimpleForecast(history, periods) == map[]
    ensures forall m :: m in SimpleForecast(history, periods) ==>
      |SimpleForecast(history, periods)[m].predictions| == Horizon(periods) &&
      SimpleForecast(history, periods)[m].confidence == seq(Horizon(periods), _ => 0.7)
  {
  }

  // ---------------------------------------------------------------------
  // Anomaly detection: only the early exit of detect_financial_anomalies

  datatype Anomaly = Anomaly(metric: string, value: real, severity: Level)

  datatype AnomalyReport = AnomalyReport(anomalies: seq<Anomaly>, anomalyScore: real)

  /**
   * Every value of a statement is a number, so the feature vector has one
   * entry per key. Fewer than three: the empty report. Otherwise the
   * isolation-forest path runs, which is not modelled (None).
   */
  function AnomalyEarlyExit(fd: Statement): (r: Option<AnomalyReport>)
    ensures r.Some? <==> |fd.Keys| < 3
    ensures r.Some? ==> r.value.anomalies == [] && r.value.anomalyScore == 0.0
  {
    if |fd.Keys| < 3 then Some(AnomalyReport([], 0.0)) else None
  }

  // ---------------------------------------------------------------------
  // Cost optimisation (generate_cost_optimization_recommendations,
  // _get_industry_benchmark)

  /** `_get_industry_benchmark(industry, 'revenue_per_employee')` */
  function RevenuePerEmployeeBenchmark(industry: string): (b: real)
    ensures industry !in Industries ==> b == 150000.0
    ensures 120000.0 <= b <= 250000.0
  {
    if industry == "manufacturing" then 200000.0
    else if industry == "retail" then 150000.0
    else if industry == "services" then 180000.0
    else if industry == "agriculture" then 120000.0
    else if industry == "logistics" then 160000.0
    else if industry == "ecommerce" then 250000.0
    else 150000.0
  }

  datatype CostCategory = Productivity | CostControl | InventoryManagement

  /** The category label, advice and time band each rule attaches. */
  function CategoryLabel(c: CostCategory): string
  {
    match c
    case Productivity => "Productivity"
    case CostControl => "Cost Control"
    case InventoryManagement => "Inventory Management"
  }

  function AdviceText(c: CostCategory): string
  {
    match c
    case Productivity => "Consider automation or training programs to improve revenue per employee"
    case CostControl => "Review and optimize operating expenses - consider renegotiating contracts"
    case InventoryManagement => "Implement just-in-time inventory management to reduce carrying costs"
  }

  function ImplementationTime(c: CostCategory): string
  {
    match c
    case Productivity => "3-6 months"
    case CostControl => "1-3 months"
    case InventoryManagement => "2-4 months"
  }

  /** One recommendation dict; its text fields follow from the category. */
  datatype CostRecommendation = CostRecommendation(category: CostCategory, potentialSavings: real)

  predicate ProductivityFires(fd: Statement, industry: string)
  {
    "revenue" in fd && "employee_count" in fd &&
    fd["revenue"] / Floor1(fd["employee_count"]) < RevenuePerEmployeeBenchmark(industry) * 0.8
  }

  /** Operating expenses above 80% of a (nonzero) revenue. */
  predicate CostControlFires(fd: Statement)
  {
    "operating_expenses" in fd && "revenue" in fd && fd["revenue"] != 0.0 &&
    fd["operating_expenses"] / fd["revenue"] > 0.8
  }

  /** Inventory turned over fewer than four times a year (nonzero inventory). */
  predicate InventoryFires(fd: Statement)
  {
    "inventory" in fd && "cost_of_goods_sold" in fd && fd["inventory"] != 0.0 &&
    fd["cost_of_goods_sold"] / fd["inventory"] < 4.0
  }

  function ProductivityAdvice(fd: Statement): CostRecommendation
    requires "revenue" in fd
  {
    CostRecommendation(Productivity, fd["revenue"] * 0.1)
  }

  function CostControlAdvice(fd: Statement): CostRecommendation
    requires "operating_expenses" in fd
  {
    CostRecommendation(CostControl, fd["operating_expenses"] * 0.15)
  }

  function InventoryAdvice(fd: Statement): CostRecommendation
    requires "inventory" in fd
  {
    CostRecommendation(InventoryManagement, fd["inventory"] * 0.2)
  }

  function ProductivityRule(fd: Statement, industry: string): seq<CostRecommendation>
  {
    if ProductivityFires(fd, industry) then [ProductivityAdvice(fd)] else []
  }

  function CostControlRule(fd: Statement): seq<CostRecommendation>
  {
    if CostControlFires(fd) then [CostControlAdvice(fd)] else []
  }

  function InventoryRule(fd: Statement): seq<CostRecommendation>
  {
    if InventoryFires(fd) then [InventoryAdvice(fd)] else []
  }

  /**
   * The three rules in their fixed order, each contributing its advice when it
   * fires; a zero revenue (behind operating expenses) or a zero inventory
   * (behind a cost of goods sold) raises instead.
   */
  function CostRecommendations(fd: Statement, industry: string): Result<seq<CostRecommendation>>
  {
    if "operating_expenses" in fd && "revenue" in fd && fd["revenue"] == 0.0 then
      Err(ZeroDivision("revenue"))
    else if "inventory" in fd && "cost_of_goods_sold" in fd && fd["inventory"] == 0.0 then
      Err(ZeroDivision("inventory"))
    else
      Ok(ProductivityRule(fd, industry) + CostControlRule(fd) + InventoryRule(fd))
  }

  method GenerateCostOptimizationRecommendations(fd: Statement, industry: string)
    returns (r: Result<seq<CostRecommendation>>)
    ensures r == CostRecommendations(fd, industry)
  {
    var recommendations: seq<CostRecommendation> := [];

    if "revenue" in fd && "employee_count" in fd {
      var revenuePerEmployee := fd["revenue"] / Floor1(fd["employee_count"]);
      var industryBenchmark := RevenuePerEmployeeBenchmark(industry);
      if revenuePerEmployee < industryBenchmark * 0.8 {
        recommendations := recommendations + [ProductivityAdvice(fd)];
      }
    }
    ghost var done := ProductivityRule(fd, industry);
    assert recommendations == done;

    if "operating_expenses" in fd && "revenue" in fd {
      if fd["revenue"] == 0.0 {
        return Err(ZeroDivision("revenue"));
      }
      var opexRatio := fd["operating_expenses"] / fd["revenue"];
      if opexRatio > 0.8 {
        recommendations := recommendations + [CostControlAdvice(fd)];
      }
    }
    done := done + CostControlRule(fd);
    assert recommendations == done;

    if "inventory" in fd && "cost_of_goods_sold" in fd {
      if fd["inventory"] == 0.0 {
        return Err(ZeroDivision("inventory"));
      }
      var inventoryTurnover := fd["cost_of_goods_sold"] / fd["inventory"];
      if inventoryTurnover < 4.0 {
        assert InventoryRule(fd) == [InventoryAdvice(fd)];
        recommendations := recommendations + [InventoryAdvice(fd)];
      } else {
        assert InventoryRule(fd) == [];
      }
    } else {
      assert InventoryRule(fd) == [];
    }
    assert recommendations == done + InventoryRule(fd);

    r := Ok(recommendations);
  }

  /** The savings each category promises: 10% of revenue, 15% of opex, 20% of inventory. */
  function SavingsFor(fd: Statement, category: CostCategory): real
  {
    match category
    case Productivity => Get(fd, "revenue", 0.0) * 0.1
    case CostControl => Get(fd, "operating_expenses", 0.0) * 0.15
    case InventoryManagement => Get(fd, "inventory", 0.0) * 0.2
  }

  function Categories(recs: seq<CostRecommendation>): (r: seq<CostCategory>)
    ensures |r| == |recs|
  {
    seq(|recs|, i requires 0 <= i < |recs| => recs[i].category)
  }

  /**
   * The advice comes in the fixed order Productivity, Cost Control,
   * Inventory Management; each rule is there exactly when it fires; every
   * piece of advice carries its category's savings.
   */
  lemma {:induction false} CostRecommendationRules(fd: Statement, industry: string)
    requires CostRecommendations(fd, industry).Ok?
    ensures Categories(CostRecommendations(fd, industry).value) ==
      (if ProductivityFires(fd, industry) then [Productivity] else [])
      + (if CostControlFires(fd) then [CostControl] else [])
      + (if InventoryFires(fd) then [InventoryManagement] else [])
    ensures forall rec :: rec in CostRecommendations(fd, industry).value ==>
      rec.potentialSavings == SavingsFor(fd, rec.category)
  {
    var p, c, v := ProductivityRule(fd, industry), CostControlRule(fd), InventoryRule(fd);
    var recs := CostRecommendations(fd, industry).value;
    assert recs == p + c + v;
    assert Categories(recs) == Categories(p) + Categories(c) + Categories(v);
  }

  // ---------------------------------------------------------------------
  // Health score (calculate_financial_health_score)

  function ProfitabilityPenalty(profitMargin: real): real
  {
    if profitMargin < 0.0 then 25.0
    else if profitMargin < 0.05 then 15.0
    else if profitMargin < 0.1 then 5.0
    else 0.0
  }

  function LiquidityPenalty(currentRatio: real): real
  {
    if currentRatio < 1.0 then 25.0
    else if currentRatio < 1.2 then 15.0
    else if currentRatio < 1.5 then 5.0
    else 0.0
  }

  function LeveragePenalty(debtToEquity: real): real
  {
    if debtToEquity > 2.0 then 25.0
    else if debtToEquity > 1.5 then 15.0
    else if debtToEquity > 1.0 then 5.0
    else 0.0
  }

  /** `max(0, min(100, x))` */
  function Clamp100(x: real): (r: real)
    ensures 0.0 <= r <= 100.0
    ensures 0.0 <= x <= 100.0 ==> r == x
  {
    Max(0.0, Min(100.0, x))
  }

  /**
   * 100 less the three band penalties and a quarter of the overall risk
   * score, clamped to [0, 100]. A missing ratio reads as 0; a missing risk
   * score (None, as in the investor report's empty risk dict) reads as 0.
   */
  function HealthScore(ratios: Statement, overallRiskScore: Option<real>): real
  {
    var risk := if overallRiskScore.Some? then overallRiskScore.value else 0.0;
    Clamp100(100.0
      - ProfitabilityPenalty(Get(ratios, "profit_margin", 0.0))
      - LiquidityPenalty(Get(ratios, "current_ratio", 0.0))
      - LeveragePenalty(Get(ratios, "debt_to_equity", 0.0))
      - risk * 0.25)
  }

  method CalculateFinancialHealthScore(ratios: Statement, overallRiskScore: Option<real>)
    returns (score: real)
    ensures score == HealthScore(ratios, overallRiskScore)
    ensures 0.0 <= score <= 100.0
  {
    score := 100.0;

    var profitMargin := Get(ratios, "profit_margin", 0.0);
    if profitMargin < 0.0 {
      score := score - 25.0;
    } else if profitMargin < 0.05 {
      score := score - 15.0;
    } else if profitMargin < 0.1 {
      score := score - 5.0;
    }

    var currentRatio := Get(ratios, "current_ratio", 0.0);
    if currentRatio < 1.0 {
      score := score - 25.0;
    } else if currentRatio < 1.2 {
      score := score - 15.0;
    } else if currentRatio < 1.5 {
      score := score - 5.0;
    }

    var debtToEquity := Get(ratios, "debt_to_equity", 0.0);
    if debtToEquity > 2.0 {
      score := score - 25.0;
    } else if debtToEquity > 1.5 {
      score := score - 15.0;
    } else if debtToEquity > 1.0 {
      score := score - 5.0;
    }

    var riskScore := if overallRiskScore.Some? then overallRiskScore.value else 0.0;
    score := score - riskScore * 0.25;

    score := Max(0.0, Min(100.0, score));
  }

  /**
   * Missing ratios are not neutral: no current ratio costs 25, no profit
   * margin costs 15, no debt-to-equity costs nothing, so an empty ratio set
   * scores 60.
   */
  lemma HealthScoreOfMissingRatios()
    ensures HealthScore(map[], None) == 60.0
    ensures HealthScore(map["profit_margin" := 0.2, "debt_to_equity" := 0.5], None) == 75.0
    ensures HealthScore(map["current_ratio" := 2.0, "debt_to_equity" := 0.5], None) == 85.0
    ensures HealthScore(map["current_ratio" := 2.0, "profit_margin" := 0.2], None) == 100.0
  {
  }

  /** The worst worked case clamps to zero. */
  lemma HealthScoreClampsAtZero()
    ensures HealthScore(map["profit_margin" := -1.0, "current_ratio" := 0.1, "debt_to_equity" := 5.0],
                        Some(100.0)) == 0.0
  {
  }

  /** More risk never raises the health score. */
  lemma HealthScoreAntitoneInRisk(ratios: Statement, r1: real, r2: real)
    requires r1 <= r2
    ensures HealthScore(ratios, Some(r2)) <= HealthScore(ratios, Some(r1))
  {
  }

  /** Without a risk deduction the score is 100 less the band penalties, never below 25. */
  lemma HealthScoreWithoutRisk(ratios: Statement)
    ensures 25.0 <= HealthScore(ratios, None) <= 100.0
    ensures HealthScore(ratios, None) == 100.0
      - ProfitabilityPenalty(Get(ratios, "profit_margin", 0.0))
      - LiquidityPenalty(Get(ratios, "current_ratio", 0.0))
      - LeveragePenalty(Get(ratios, "debt_to_equity", 0.0))
  {
  }

  // ---------------------------------------------------------------------
  // Investor report (generate_investor_report)

  datatype Strength = StrongProfitMargins | ExcellentLiquidity

  datatype Concern = HighDebtBurden | LowProfitability

  function StrengthText(t: Strength): string
  {
    match t
    case StrongProfitMargins => "Strong profit margins"
    case ExcellentLiquidity => "Excellent liquidity position"
  }

  function ConcernText(t: Concern): string
  {
    match t
    case HighDebtBurden => "High debt burden"
    case LowProfitability => "Low profitability"
  }

  datatype InvestorReport = InvestorReport(
    businessType: string,
    financialHealthScore: real,
    keyStrengths: seq<Strength>,
    keyConcerns: seq<Concern>,
    financialMetrics: Statement,
    forecasts: Forecasts)

  /**
   * The report scores health with no risks, then appends one strength per
   * rule (margin above 10%, current ratio above 1.5) and one concern per
   * rule (debt-to-equity above 1.5, margin below 5%), each in rule order.
   */
  method GenerateInvestorReport(ratios: Statement, forecasts: Forecasts, industry: string)
    returns (report: InvestorReport)
    ensures report.financialHealthScore == HealthScore(ratios, None)
    ensures report.keyStrengths ==
      (if Get(ratios, "profit_margin", 0.0) > 0.1 then [StrongProfitMargins] else [])
      + (if Get(ratios, "current_ratio", 0.0) > 1.5 then [ExcellentLiquidity] else [])
    ensures report.keyConcerns ==
      (if Get(ratios, "debt_to_equity", 0.0) > 1.5 then [HighDebtBurden] else [])
      + (if Get(ratios, "profit_margin", 0.0) < 0.05 then [LowProfitability] else [])
    ensures StrongProfitMargins in report.keyStrengths <==> Get(ratios, "profit_margin", 0.0) > 0.1
    ensures ExcellentLiquidity in report.keyStrengths <==> Get(ratios, "current_ratio", 0.0) > 1.5
    ensures HighDebtBurden in report.keyConcerns <==> Get(ratios, "debt_to_equity", 0.0) > 1.5
    ensures LowProfitability in report.keyConcerns <==> Get(ratios, "profit_margin", 0.0) < 0.05
    ensures report.financialMetrics == ratios && report.forecasts == forecasts && report.businessType == industry
  {
    var score := CalculateFinancialHealthScore(ratios, None);
    var strengths: seq<Strength> := [];
    var concerns: seq<Concern> := [];

    if Get(ratios, "profit_margin", 0.0) > 0.1 {
      strengths := strengths + [StrongProfitMargins];
    }
    if Get(ratios, "current_ratio", 0.0) > 1.5 {
      strengths := strengths + [ExcellentLiquidity];
    }

    if Get(ratios, "debt_to_equity", 0.0) > 1.5 {
      concerns := concerns + [HighDebtBurden];
    }
    if Get(ratios, "profit_margin", 0.0) < 0.05 {
      concerns := concerns + [LowProfitability];
    }

    report := InvestorReport(industry, score, strengths, concerns, ratios, forecasts);
  }
}
