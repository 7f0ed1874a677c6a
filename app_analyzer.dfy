/**
 * The `FinancialAnalyzer` of app.py: the credit score with its two-band
 * liquidity and profitability rules and the operating-cash-flow rule, the
 * three benchmark recommendations, and the statement extracted from an
 * upload (the column classifier, or the fixed sample snapshot).
 */
module AppAnalyzer {
  import opened Common
  import opened FlaskShared

  // ---------------------------------------------------------------------
  // Credit assessment (assess_creditworthiness)

  function LiquidityFactors(currentRatio: real): seq<RiskFactor>
  {
    if currentRatio < 1.0 then [LowLiquidity] else if currentRatio < 1.2 then [ModerateLiquidity] else []
  }

  function DebtFactors(debtToEquity: real): seq<RiskFactor>
  {
    if debtToEquity > 1.0 then [HighDebt] else []
  }

  function ProfitFactors(profitMargin: real): seq<RiskFactor>
  {
    if profitMargin < 0.0 then [NegativeMargins] else if profitMargin < 0.05 then [LowMargins] else []
  }

  function CashFlowFactors(operatingCashFlow: real): seq<RiskFactor>
  {
    if operatingCashFlow < 0.0 then [NegativeCashFlow] else []
  }

  /** The factors the four rules append, in rule order; a missing figure reads as 0. */
  function RiskFactors(fd: Statement, ratios: Statement): seq<RiskFactor>
  {
    LiquidityFactors(Get(ratios, "current_ratio", 0.0))
      + DebtFactors(Get(ratios, "debt_to_equity", 0.0))
      + ProfitFactors(Get(ratios, "profit_margin", 0.0))
      + CashFlowFactors(Get(fd, "operating_cash_flow", 0.0))
  }

  /** The points each rule takes off; a missing figure reads as 0. */
  function LiquidityPenalty(currentRatio: real): int
  {
    if currentRatio < 1.0 then 20 else if currentRatio < 1.2 then 10 else 0
  }

  function DebtPenalty(debtToEquity: real): int
  {
    if debtToEquity > 1.0 then 15 else 0
  }

  function ProfitPenalty(profitMargin: real): int
  {
    if profitMargin < 0.0 then 25 else if profitMargin < 0.05 then 10 else 0
  }

  function CashFlowPenalty(operatingCashFlow: real): int
  {
    if operatingCashFlow < 0.0 then 20 else 0
  }

  /** The score before `max(score, 0)`. */
  function CreditScore(fd: Statement, ratios: Statement): int
  {
    100 - LiquidityPenalty(Get(ratios, "current_ratio", 0.0))
      - DebtPenalty(Get(ratios, "debt_to_equity", 0.0))
      - ProfitPenalty(Get(ratios, "profit_margin", 0.0))
      - CashFlowPenalty(Get(fd, "operating_cash_flow", 0.0))
  }

  /**
   * The score starts at 100 and each rule takes its points off and appends
   * its factor. The worst case keeps 20 points, so `max(score, 0)` returns
   * the score unchanged; the grade is read off the same score.
   */
  method AssessCreditworthiness(fd: Statement, ratios: Statement) returns (a: CreditAssessment)
    ensures a.score == CreditScore(fd, ratios)
    ensures a.riskFactors == RiskFactors(fd, ratios)
    ensures 20 <= a.score <= 100
    ensures a.grade == CreditGrade(a.score)
  {
    var score := 100;
    var riskFactors: seq<RiskFactor> := [];

    var cr := Get(ratios, "current_ratio", 0.0);
    if cr < 1.0 {
      score := score - 20;
      riskFactors := riskFactors + [LowLiquidity];
    } else if cr < 1.2 {
      score := score - 10;
      riskFactors := riskFactors + [ModerateLiquidity];
    }
    ghost var l := LiquidityFactors(cr);
    assert riskFactors == l;

    var de := Get(ratios, "debt_to_equity", 0.0);
    if de > 1.0 {
      score := score - 15;
      riskFactors := riskFactors + [HighDebt];
    }
    ghost var d := DebtFactors(de);
    assert riskFactors == l + d;

    var pm := Get(ratios, "profit_margin", 0.0);
    if pm < 0.0 {
      score := score - 25;
      riskFactors := riskFactors + [NegativeMargins];
    } else if pm < 0.05 {
      score := score - 10;
      riskFactors := riskFactors + [LowMargins];
    }
    ghost var p := ProfitFactors(pm);
    assert riskFactors == l + d + p;

    var ocf := Get(fd, "operating_cash_flow", 0.0);
    if ocf < 0.0 {
      score := score - 20;
      riskFactors := riskFactors + [NegativeCashFlow];
    }
    assert riskFactors == l + d + p + CashFlowFactors(ocf);

    var grade := CreditGrade(score);
    a := CreditAssessment(if score >= 0 then score else 0, grade, riskFactors);
  }

  /** The score loses exactly the penalties of the factors it reports, one factor per penalty. */
  lemma ScoreMatchesFactors(fd: Statement, ratios: Statement)
    ensures CreditScore(fd, ratios) == 100 - TotalPenalty(RiskFactors(fd, ratios))
  {
    var l := LiquidityFactors(Get(ratios, "current_ratio", 0.0));
    var d := DebtFactors(Get(ratios, "debt_to_equity", 0.0));
    var p := ProfitFactors(Get(ratios, "profit_margin", 0.0));
    var c := CashFlowFactors(Get(fd, "operating_cash_flow", 0.0));
    TotalPenaltyAppend(l, d);
    TotalPenaltyAppend(l + d, p);
    TotalPenaltyAppend(l + d + p, c);
    assert TotalPenalty(l) == LiquidityPenalty(Get(ratios, "current_ratio", 0.0));
    assert TotalPenalty(d) == DebtPenalty(Get(ratios, "debt_to_equity", 0.0));
    assert TotalPenalty(p) == ProfitPenalty(Get(ratios, "profit_margin", 0.0));
    assert TotalPenalty(c) == CashFlowPenalty(Get(fd, "operating_cash_flow", 0.0));
  }

  /**
   * Each rule reports its factor exactly when its threshold is crossed, so a
   * factor in the list is evidence of that threshold and nothing else.
   */
  lemma RiskFactorsExact(fd: Statement, ratios: Statement)
    ensures var fs := RiskFactors(fd, ratios);
      var cr := Get(ratios, "current_ratio", 0.0);
      var pm := Get(ratios, "profit_margin", 0.0);
      (LowLiquidity in fs <==> cr < 1.0) &&
      (ModerateLiquidity in fs <==> 1.0 <= cr < 1.2) &&
      (HighDebt in fs <==> Get(ratios, "debt_to_equity", 0.0) > 1.0) &&
      (NegativeMargins in fs <==> pm < 0.0) &&
      (LowMargins in fs <==> 0.0 <= pm < 0.05) &&
      (NegativeCashFlow in fs <==> Get(fd, "operating_cash_flow", 0.0) < 0.0) &&
      |fs| <= 4
  {
    var l, d, p, c := LiquidityFactors(Get(ratios, "current_ratio", 0.0)), DebtFactors(Get(ratios, "debt_to_equity", 0.0)),
      ProfitFactors(Get(ratios, "profit_margin", 0.0)), CashFlowFactors(Get(fd, "operating_cash_flow", 0.0));
    var fs := RiskFactors(fd, ratios);
    assert fs == l + d + p + c;
    forall f
      ensures f in fs <==> f in l || f in d || f in p || f in c
    {
    }
  }

  // ---------------------------------------------------------------------
  // Recommendations (generate_recommendations)

  function AdviceText(c: RecCategory): string
  {
    match c
    case Liquidity =>
      "Improve working capital management by optimizing inventory levels and accelerating receivables collection"
    case Profitability => "Focus on cost optimization and pricing strategy review to improve profit margins"
    case Leverage => "Consider debt restructuring or equity financing to improve capital structure"
  }

  /** Liquidity and Profitability are High priority, Leverage Medium. */
  function PriorityOf(c: RecCategory): Level
  {
    if c == Leverage then Medium else High
  }

  /**
   * The three benchmark rules against the industry's figures (services for
   * an industry the table does not list): a category is recommended exactly
   * when its ratio is on the wrong side of the benchmark, at most once, in
   * rule order.
   */
  function Recommendations(ratios: Statement, industry: string): (recs: seq<RecCategory>)
    ensures InRuleOrder(recs)
    ensures Liquidity in recs <==> Get(ratios, "current_ratio", 0.0) < BenchmarksFor(industry).currentRatio
    ensures Profitability in recs <==> Get(ratios, "profit_margin", 0.0) < BenchmarksFor(industry).profitMargin
    ensures Leverage in recs <==> Get(ratios, "debt_to_equity", 0.0) > BenchmarksFor(industry).debtToEquity
  {
    var b := BenchmarksFor(industry);
    (if Get(ratios, "current_ratio", 0.0) < b.currentRatio then [Liquidity] else [])
      + (if Get(ratios, "profit_margin", 0.0) < b.profitMargin then [Profitability] else [])
      + (if Get(ratios, "debt_to_equity", 0.0) > b.debtToEquity then [Leverage] else [])
  }

  method GenerateRecommendations(fd: Statement, ratios: Statement, industry: string)
    returns (recs: seq<RecCategory>)
    ensures recs == Recommendations(ratios, industry)
  {
    recs := [];
    var b := BenchmarksFor(industry);
    if Get(ratios, "current_ratio", 0.0) < b.currentRatio {
      recs := recs + [Liquidity];
    }
    if Get(ratios, "profit_margin", 0.0) < b.profitMargin {
      recs := recs + [Profitability];
    }
    if Get(ratios, "debt_to_equity", 0.0) > b.debtToEquity {
      recs := recs + [Leverage];
    }
  }

  /**
   * With no ratios at all, every industry's benchmarks are positive, so the
   * zeros fail the liquidity and profitability tests and pass the leverage
   * one.
   */
  lemma EmptyRatiosRecommendations(industry: string)
    ensures Recommendations(map[], industry) == [Liquidity, Profitability]
  {
    var b := BenchmarksFor(industry);
    assert [Liquidity] + [Profitability] + [] == [Liquidity, Profitability];
  }

  // ---------------------------------------------------------------------
  // Upload extraction (extract_financial_metrics)

  /** The demonstration statement returned for anything that is not a table. */
  function SampleSnapshot(): Statement
  {
    map["revenue" := 1000000.0, "net_income" := 80000.0, "current_assets" := 300000.0,
        "current_liabilities" := 200000.0, "total_debt" := 400000.0, "total_equity" := 500000.0,
        "operating_cash_flow" := 120000.0]
  }

  method ExtractFinancialMetrics(doc: Document, businessType: string) returns (metrics: Statement)
    ensures doc.Table? ==> metrics == ColumnMetrics(doc.columns) && metrics.Keys <= MetricKeys
    ensures doc.NotTable? ==> metrics == SampleSnapshot()
  {
    if doc.Table? {
      metrics := ExtractColumnMetrics(doc.columns);
    } else {
      metrics := SampleSnapshot();
    }
  }

  /**
   * The sample has no total_assets, so it yields three ratios, and it earns
   * a clean 100 and grade A with no factors.
   */
  lemma SampleSnapshotAssessment()
    ensures CalculateFinancialRatios(SampleSnapshot()) ==
      map["current_ratio" := 1.5, "profit_margin" := 0.08, "debt_to_equity" := 0.8]
    ensures RiskFactors(SampleSnapshot(), CalculateFinancialRatios(SampleSnapshot())) == []
    ensures CreditGrade(100 - TotalPenalty([])) == A
  {
    var r := CalculateFinancialRatios(SampleSnapshot());
    assert r.Keys == {"current_ratio", "profit_margin", "debt_to_equity"};
  }
}
