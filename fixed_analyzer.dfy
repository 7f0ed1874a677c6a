/**
 * The `FinancialAnalyzer` that app_fixed.py and app_simple.py carry with the
 * same text: a credit score with three single-threshold rules, the
 * liquidity and profitability benchmark recommendations, and the upload
 * extraction whose sample snapshot includes total assets.
 */
module FixedAnalyzer {
  import opened Common
  import opened FlaskShared

  // ---------------------------------------------------------------------
  // Credit assessment (assess_creditworthiness)

  /** The factors the three rules append, in rule order; a missing ratio reads as 0. */
  function RiskFactors(ratios: Statement): seq<RiskFactor>
  {
    (if Get(ratios, "current_ratio", 0.0) < 1.0 then [LowLiquidity] else [])
      + (if Get(ratios, "debt_to_equity", 0.0) > 1.0 then [HighDebt] else [])
      + (if Get(ratios, "profit_margin", 0.0) < 0.0 then [NegativeMargins] else [])
  }

  /** The score before `max(score, 0)`: 100 less 20, 15 and 25 for the three rules. */
  function CreditScore(ratios: Statement): int
  {
    100 - (if Get(ratios, "current_ratio", 0.0) < 1.0 then 20 else 0)
      - (if Get(ratios, "debt_to_equity", 0.0) > 1.0 then 15 else 0)
      - (if Get(ratios, "profit_margin", 0.0) < 0.0 then 25 else 0)
  }

  /**
   * At most 60 points can go, so the score stays in [40, 100], `max(score, 0)`
   * never binds and the grade is never D.
   */
  method AssessCreditworthiness(fd: Statement, ratios: Statement) returns (a: CreditAssessment)
    ensures a.score == CreditScore(ratios)
    ensures a.riskFactors == RiskFactors(ratios)
    ensures 40 <= a.score <= 100
    ensures a.grade == CreditGrade(a.score) && a.grade != D
  {
    var score := 100;
    var riskFactors: seq<RiskFactor> := [];

    if Get(ratios, "current_ratio", 0.0) < 1.0 {
      score := score - 20;
      riskFactors := riskFactors + [LowLiquidity];
    }
    if Get(ratios, "debt_to_equity", 0.0) > 1.0 {
      score := score - 15;
      riskFactors := riskFactors + [HighDebt];
    }
    if Get(ratios, "profit_margin", 0.0) < 0.0 {
      score := score - 25;
      riskFactors := riskFactors + [NegativeMargins];
    }

    var grade := CreditGrade(score);
    a := CreditAssessment(if score >= 0 then score else 0, grade, riskFactors);
  }

  /**
   * The factor list names exactly the rules that fired, and the score loses
   * exactly their penalties.
   */
  lemma ScoreMatchesFactors(ratios: Statement)
    ensures CreditScore(ratios) == 100 - TotalPenalty(RiskFactors(ratios))
    ensures LowLiquidity in RiskFactors(ratios) <==> Get(ratios, "current_ratio", 0.0) < 1.0
    ensures HighDebt in RiskFactors(ratios) <==> Get(ratios, "debt_to_equity", 0.0) > 1.0
    ensures NegativeMargins in RiskFactors(ratios) <==> Get(ratios, "profit_margin", 0.0) < 0.0
  {
    var l := if Get(ratios, "current_ratio", 0.0) < 1.0 then [LowLiquidity] else [];
    var d := if Get(ratios, "debt_to_equity", 0.0) > 1.0 then [HighDebt] else [];
    var p := if Get(ratios, "profit_margin", 0.0) < 0.0 then [NegativeMargins] else [];
    assert RiskFactors(ratios) == l + d + p;
    TotalPenaltyAppend(l, d);
    TotalPenaltyAppend(l + d, p);
    assert TotalPenalty([LowLiquidity]) == 20;
    assert TotalPenalty([HighDebt]) == 15;
    assert TotalPenalty([NegativeMargins]) == 25;
  }

  // ---------------------------------------------------------------------
  // Recommendations (generate_recommendations)

  /** This analyzer has no leverage rule, hence no leverage text. */
  function AdviceText(c: RecCategory): string
    requires c != Leverage
  {
    if c == Liquidity then "Improve working capital management by optimizing inventory levels"
    else "Focus on cost optimization and pricing strategy review"
  }

  /**
   * Only the liquidity and profitability rules exist, both High priority,
   * against the industry's benchmarks with the services fallback.
   */
  function Recommendations(ratios: Statement, industry: string): (recs: seq<RecCategory>)
    ensures InRuleOrder(recs)
    ensures Leverage !in recs
    ensures Liquidity in recs <==> Get(ratios, "current_ratio", 0.0) < BenchmarksFor(industry).currentRatio
    ensures Profitability in recs <==> Get(ratios, "profit_margin", 0.0) < BenchmarksFor(industry).profitMargin
  {
    var b := BenchmarksFor(industry);
    (if Get(ratios, "current_ratio", 0.0) < b.currentRatio then [Liquidity] else [])
      + (if Get(ratios, "profit_margin", 0.0) < b.profitMargin then [Profitability] else [])
  }

  method GenerateRecommendations(fd: Statement, ratios: Statement, industry: string)
    returns (recs: seq<RecCategory>)
    ensures recs == Recommendations(ratios, industry)
  {
    recs := [];
    var b := BenchmarksFor(industry);
    if Get(ratios, "current_ratio", 0.0) < b.currentRatio {
      recs := recs + [Liquidity];
    }
    if Get(ratios, "profit_margin", 0.0) < b.profitMargin {
      recs := recs + [Profitability];
    }
  }

  /** An unknown industry is advised exactly as services is. */
  lemma UnknownIndustryIsServices(ratios: Statement, industry: string)
    requires IndustryBenchmark(industry).None?
    ensures Recommendations(ratios, industry) == Recommendations(ratios, "services")
  {
    assert BenchmarksFor(industry) == BenchmarksFor("services");
  }

  // ---------------------------------------------------------------------
  // Upload extraction (extract_financial_metrics)

  /** The demonstration statement returned for anything that is not a table. */
  function SampleSnapshot(): Statement
  {
    map["revenue" := 1000000.0, "net_income" := 80000.0, "current_assets" := 300000.0,
        "current_liabilities" := 200000.0, "total_debt" := 400000.0, "total_equity" := 500000.0,
        "total_assets" := 750000.0]
  }

  method ExtractFinancialMetrics(doc: Document, businessType: string) returns (metrics: Statement)
    ensures doc.Table? ==> metrics == ColumnMetrics(doc.columns) && metrics.Keys <= MetricKeys
    ensures doc.NotTable? ==> metrics == SampleSnapshot()
  {
    if doc.Table? {
      metrics := ExtractColumnMetrics(doc.columns);
    } else {
      metrics := SampleSnapshot();
    }
  }

  /** The sample carries every operand, so all four ratios come out of it. */
  lemma SampleSnapshotRatios()
    ensures CalculateFinancialRatios(SampleSnapshot()).Keys ==
      {"current_ratio", "profit_margin", "debt_to_equity", "asset_turnover"}
    ensures CalculateFinancialRatios(SampleSnapshot())["asset_turnover"] == 1000000.0 / 750000.0
    ensures CreditScore(CalculateFinancialRatios(SampleSnapshot())) == 100
  {
    var r := CalculateFinancialRatios(SampleSnapshot());
    assert "current_ratio" in r && "profit_margin" in r && "debt_to_equity" in r && "asset_turnover" in r;
  }
}
