/**
 * The smallest analyzer, app_minimal.py: two ratios, two score rules, the
 * grade and risk level, and three advice lines, the last one driven by the
 * score itself.
 */
module MinimalApp {
  import opened Common

  /** The raw score: 30 off for a current ratio below 1, 20 off for a margin below 5%. */
  function Score(currentRatio: real, profitMargin: real): int
  {
    100 - (if currentRatio < 1.0 then 30 else 0) - (if profitMargin < 5.0 then 20 else 0)
  }

  datatype MinimalAdvice = ImproveLiquidity | OptimizeCosts | RestructureDebt

  function AdviceText(a: MinimalAdvice): string
  {
    match a
    case ImproveLiquidity => "Improve liquidity by reducing current liabilities"
    case OptimizeCosts => "Focus on cost optimization to improve profit margins"
    case RestructureDebt => "Consider debt restructuring to improve financial health"
  }

  datatype AnalyzeResult = AnalyzeResult(
    creditScore: int,
    grade: Grade,
    currentRatio: real,
    profitMargin: real,
    riskLevel: Level,
    recommendations: seq<MinimalAdvice>)

  const RequestKeys: seq<string> := ["assets", "liabilities", "profit", "revenue"]

  /**
   * The analyze route. The score is one of 100, 80, 70 and 50, so the grade
   * is never D, the risk level never High, and `max(score, 0)` never binds.
   * The debt advice depends only on the score, which falls below 60 exactly
   * when both rules fire.
   */
  method Analyze(data: Statement) returns (r: Result<AnalyzeResult>)
    ensures r.Err? <==> exists k :: k in RequestKeys && k !in data
    ensures r.Ok? ==> forall k :: k in RequestKeys ==> k in data
    ensures r.Ok? ==>
      var cr := data["assets"] / Floor1(data["liabilities"]);
      var pm := data["profit"] / Floor1(data["revenue"]) * 100.0;
      r.value.currentRatio == cr && r.value.profitMargin == pm &&
      r.value.creditScore == Score(cr, pm) &&
      r.value.grade == CreditGrade(r.value.creditScore) &&
      r.value.riskLevel == RiskLevel(r.value.creditScore) &&
      r.value.recommendations ==
        (if cr < 1.2 then [ImproveLiquidity] else [])
        + (if pm < 10.0 then [OptimizeCosts] else [])
        + (if r.value.creditScore < 60 then [RestructureDebt] else [])
    ensures r.Ok? ==> r.value.creditScore in {100, 80, 70, 50}
    ensures r.Ok? ==> r.value.grade != D && r.value.riskLevel != High
    ensures r.Ok? ==> (RestructureDebt in r.value.recommendations <==>
                       r.value.currentRatio < 1.0 && r.value.profitMargin < 5.0)
  {
    var missing := FirstMissing(data, RequestKeys);
    if missing.Some? {
      return Err(MissingKey(missing.value));
    }

    var currentRatio := data["assets"] / Floor1(data["liabilities"]);
    var profitMargin := data["profit"] / Floor1(data["revenue"]) * 100.0;

    var score := 100;
    if currentRatio < 1.0 {
      score := score - 30;
    }
    if profitMargin < 5.0 {
      score := score - 20;
    }

    var grade := CreditGrade(score);
    var riskLevel := RiskLevel(score);

    var recommendations: seq<MinimalAdvice> := [];
    if currentRatio < 1.2 {
      recommendations := recommendations + [ImproveLiquidity];
    }
    if profitMargin < 10.0 {
      recommendations := recommendations + [OptimizeCosts];
    }
    if score < 60 {
      recommendations := recommendations + [RestructureDebt];
    }

    r := Ok(AnalyzeResult(if score >= 0 then score else 0, grade, currentRatio, profitMargin,
                          riskLevel, recommendations));
  }

  /**
   * A liquidity crisis implies the liquidity advice and a margin below 5%
   * implies the cost advice, so the debt advice never comes alone: it is
   * always the third of three lines.
   */
  lemma DebtAdviceComesLast(currentRatio: real, profitMargin: real)
    requires Score(currentRatio, profitMargin) < 60
    ensures currentRatio < 1.2 && profitMargin < 10.0
  {
  }
}
