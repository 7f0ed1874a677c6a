/**
 * The parts of the Flask `FinancialAnalyzer` that app.py, app_fixed.py and
 * app_simple.py carry with the same text: the ratio dict built by conditional
 * inserts over `max(x, 1)` denominators, the six-industry benchmark table
 * with its services fallback, and the column-name classifier that turns an
 * uploaded table into a statement.
 */
module FlaskShared {
  import opened Common

  // ---------------------------------------------------------------------
  // Ratios (calculate_financial_ratios)

  /**
   * The ratio dict. Each ratio is present exactly when both of its operands
   * are, and is the numerator over the denominator floored at 1; no other key
   * appears.
   */
  function CalculateFinancialRatios(data: Statement): (r: Statement)
    ensures r.Keys <= {"current_ratio", "profit_margin", "debt_to_equity", "asset_turnover"}
    ensures "current_ratio" in r <==> "current_assets" in data && "current_liabilities" in data
    ensures "profit_margin" in r <==> "net_income" in data && "revenue" in data
    ensures "debt_to_equity" in r <==> "total_debt" in data && "total_equity" in data
    ensures "asset_turnover" in r <==> "revenue" in data && "total_assets" in data
    ensures "current_ratio" in r ==>
      r["current_ratio"] == data["current_assets"] / Floor1(data["current_liabilities"])
    ensures "profit_margin" in r ==>
      r["profit_margin"] == data["net_income"] / Floor1(data["revenue"])
    ensures "debt_to_equity" in r ==>
      r["debt_to_equity"] == data["total_debt"] / Floor1(data["total_equity"])
    ensures "asset_turnover" in r ==>
      r["asset_turnover"] == data["revenue"] / Floor1(data["total_assets"])
  {
    var r0: Statement := map[];
    var r1 := if "current_assets" in data && "current_liabilities" in data
      then r0["current_ratio" := data["current_assets"] / Floor1(data["current_liabilities"])] else r0;
    var r2 := if "net_income" in data && "revenue" in data
      then r1["profit_margin" := data["net_income"] / Floor1(data["revenue"])] else r1;
    var r3 := if "total_debt" in data && "total_equity" in data
      then r2["debt_to_equity" := data["total_debt"] / Floor1(data["total_equity"])] else r2;
    if "revenue" in data && "total_assets" in data
      then r3["asset_turnover" := data["revenue"] / Floor1(data["total_assets"])] else r3
  }

  /**
   * The floored denominator never magnifies: a ratio of a non-negative
   * numerator is at most that numerator, and is non-negative.
   */
  lemma RatiosNeverExceedNumerator(data: Statement)
    requires forall k :: k in data ==> data[k] >= 0.0
    ensures var r := CalculateFinancialRatios(data);
      ("current_ratio" in r ==> 0.0 <= r["current_ratio"] <= data["current_assets"]) &&
      ("profit_margin" in r ==> 0.0 <= r["profit_margin"] <= data["net_income"]) &&
      ("debt_to_equity" in r ==> 0.0 <= r["debt_to_equity"] <= data["total_debt"]) &&
      ("asset_turnover" in r ==> 0.0 <= r["asset_turnover"] <= data["revenue"])
  {
    var r := CalculateFinancialRatios(data);
    if "current_ratio" in r {
      QuotientBound(data["current_assets"], data["current_liabilities"]);
    }
    if "profit_margin" in r {
      QuotientBound(data["net_income"], data["revenue"]);
    }
    if "debt_to_equity" in r {
      QuotientBound(data["total_debt"], data["total_equity"]);
    }
    if "asset_turnover" in r {
      QuotientBound(data["revenue"], data["total_assets"]);
    }
  }

  lemma QuotientBound(n: real, d: real)
    requires n >= 0.0
    ensures 0.0 <= n / Floor1(d) <= n
  {
    var f := Floor1(d);
    assert n / f * f == n;
  }

  // ---------------------------------------------------------------------
  // Industry benchmarks (industry_benchmarks and its services fallback)

  datatype Benchmark = Benchmark(currentRatio: real, debtToEquity: real, profitMargin: real)

  /** The six-industry table; `None` for an industry it does not list. */
  function IndustryBenchmark(industry: string): Option<Benchmark>
  {
    if industry == "manufacturing" then Some(Benchmark(1.5, 0.6, 0.08))
    else if industry == "retail" then Some(Benchmark(1.2, 0.8, 0.05))
    else if industry == "services" then Some(Benchmark(1.3, 0.5, 0.12))
    else if industry == "agriculture" then Some(Benchmark(1.4, 0.7, 0.06))
    else if industry == "logistics" then Some(Benchmark(1.1, 0.9, 0.04))
    else if industry == "ecommerce" then Some(Benchmark(1.6, 0.4, 0.10))
    else None
  }

  /** `industry_benchmarks.get(industry, industry_benchmarks['services'])` */
  function BenchmarksFor(industry: string): (b: Benchmark)
    ensures IndustryBenchmark(industry).Some? ==> b == IndustryBenchmark(industry).value
    ensures IndustryBenchmark(industry).None? ==> b == IndustryBenchmark("services").value
    ensures 1.1 <= b.currentRatio <= 1.6 && 0.4 <= b.debtToEquity <= 0.9
    ensures 0.04 <= b.profitMargin <= 0.12
  {
    match IndustryBenchmark(industry)
    case Some(b) => b
    case None => Benchmark(1.3, 0.5, 0.12)
  }

  // ---------------------------------------------------------------------
  // Column classification (extract_financial_metrics on a table)

  /** An uploaded table column: its header and its numeric cells. */
  datatype Column = Column(name: string, values: seq<real>)

  /** An uploaded document: a parsed table, or anything else. */
  datatype Document = Table(columns: seq<Column>) | NotTable

  function Sum(values: seq<real>): real
  {
    if |values| == 0 then 0.0 else Sum(values[..|values| - 1]) + values[|values| - 1]
  }

  const MetricKeys: set<string> :=
    {"revenue", "net_income", "current_assets", "current_liabilities", "total_debt", "total_equity"}

  /**
   * The if/elif chain on the lower-cased header: the first test that holds
   * decides the metric, and a header that passes none feeds no metric.
   */
  function ClassifyColumn(name: string): (m: Option<string>)
    ensures m.Some? ==> m.value in MetricKeys
    ensures Contains(Lower(name), "revenue") || Contains(Lower(name), "sales") <==> m == Some("revenue")
  {
    var l := Lower(name);
    if Contains(l, "revenue") || Contains(l, "sales") then Some("revenue")
    else if Contains(l, "net income") || Contains(l, "profit") then Some("net_income")
    else if Contains(l, "current assets") then Some("current_assets")
    else if Contains(l, "current liabilities") then Some("current_liabilities")
    else if Contains(l, "total debt") then Some("total_debt")
    else if Contains(l, "equity") then Some("total_equity")
    else None
  }

  /** The metrics dict after the loop has visited `cols` in order. */
  function ColumnMetrics(cols: seq<Column>): Statement
  {
    if |cols| == 0 then map[]
    else
      var before := ColumnMetrics(cols[..|cols| - 1]);
      var c := cols[|cols| - 1];
      match ClassifyColumn(c.name)
      case Some(k) => before[k := Sum(c.values)]
      case None => before
  }

  /** `for col in data.columns: ... metrics[key] = data[col].sum()` */
  method ExtractColumnMetrics(cols: seq<Column>) returns (metrics: Statement)
    ensures metrics == ColumnMetrics(cols)
    ensures metrics.Keys <= MetricKeys
  {
    metrics := map[];
    var i := 0;
    while i < |cols|
      invariant 0 <= i <= |cols|
      invariant metrics == ColumnMetrics(cols[..i])
      invariant metrics.Keys <= MetricKeys
    {
      assert cols[..i + 1][..i] == cols[..i];
      var c := cols[i];
      var key := ClassifyColumn(c.name);
      if key.Some? {
        metrics := metrics[key.value := Sum(c.values)];
      }
      i := i + 1;
    }
    assert cols[..i] == cols;
  }

  /**
   * A metric is present exactly when some column classifies to it, and then
   * it holds the sum of the LAST such column: later columns overwrite.
   */
  lemma {:induction false} ColumnMetricsLastWins(cols: seq<Column>, k: string)
    ensures k in ColumnMetrics(cols) <==> exists j :: 0 <= j < |cols| && ClassifyColumn(cols[j].name) == Some(k)
    ensures forall j :: (0 <= j < |cols| && ClassifyColumn(cols[j].name) == Some(k) &&
      (forall j' :: j < j' < |cols| ==> ClassifyColumn(cols[j'].name) != Some(k))) ==>
      k in ColumnMetrics(cols) && ColumnMetrics(cols)[k] == Sum(cols[j].values)
  {
    if |cols| > 0 {
      var init := cols[..|cols| - 1];
      var last := cols[|cols| - 1];
      ColumnMetricsLastWins(init, k);
      forall j | 0 <= j < |init|
        ensures init[j] == cols[j]
      {
      }
      if ClassifyColumn(last.name) == Some(k) {
        assert ColumnMetrics(cols)[k] == Sum(last.values);
      } else {
        assert k in ColumnMetrics(cols) <==> k in ColumnMetrics(init);
        if k in ColumnMetrics(cols) {
          assert ColumnMetrics(cols)[k] == ColumnMetrics(init)[k];
        }
        forall j | 0 <= j < |cols| && ClassifyColumn(cols[j].name) == Some(k) &&
          (forall j' :: j < j' < |cols| ==> ClassifyColumn(cols[j'].name) != Some(k))
          ensures k in ColumnMetrics(cols) && ColumnMetrics(cols)[k] == Sum(cols[j].values)
        {
          assert j < |init|;
          assert forall j' :: j < j' < |init| ==> ClassifyColumn(init[j'].name) != Some(k);
        }
      }
    }
  }

  /** Two revenue-like headers: the later one's sum is the revenue. */
  lemma LaterRevenueColumnOverwrites(a: seq<real>, b: seq<real>)
    ensures ColumnMetrics([Column("Revenue", a), Column("Sales", b)]) == map["revenue" := Sum(b)]
  {
    var cols := [Column("Revenue", a), Column("Sales", b)];
    assert Lower("Revenue") == "revenue";
    assert ClassifyColumn("Revenue") == Some("revenue");
    assert Lower("Sales") == "sales";
    assert ClassifyColumn("Sales") == Some("revenue");
    assert cols[..1] == [Column("Revenue", a)];
    assert cols[..1][..0] == [];
    assert ColumnMetrics(cols[..1]) == map["revenue" := Sum(a)];
  }

  // ---------------------------------------------------------------------
  // Credit assessment and recommendations: the vocabulary both analyzers use

  /** One entry of `risk_factors`; the message and penalty follow from it. */
  datatype RiskFactor =
    | LowLiquidity | ModerateLiquidity | HighDebt | NegativeMargins | LowMargins | NegativeCashFlow

  function Message(f: RiskFactor): string
  {
    match f
    case LowLiquidity => "Low liquidity - current ratio below 1.0"
    case ModerateLiquidity => "Moderate liquidity concern"
    case HighDebt => "High debt burden"
    case NegativeMargins => "Negative profit margins"
    case LowMargins => "Low profit margins"
    case NegativeCashFlow => "Negative operating cash flow"
  }

  /** The points a rule takes off the score when it appends its factor. */
  function PenaltyOf(f: RiskFactor): int
  {
    match f
    case LowLiquidity => 20
    case ModerateLiquidity => 10
    case HighDebt => 15
    case NegativeMargins => 25
    case LowMargins => 10
    case NegativeCashFlow => 20
  }

  function TotalPenalty(fs: seq<RiskFactor>): int
  {
    if |fs| == 0 then 0 else TotalPenalty(fs[..|fs| - 1]) + PenaltyOf(fs[|fs| - 1])
  }

  lemma {:induction false} TotalPenaltyAppend(fs: seq<RiskFactor>, gs: seq<RiskFactor>)
    ensures TotalPenalty(fs + gs) == TotalPenalty(fs) + TotalPenalty(gs)
    decreases |gs|
  {
    if |gs| == 0 {
      assert fs + gs == fs;
    } else {
      var init := gs[..|gs| - 1];
      assert (fs + gs)[..|fs + gs| - 1] == fs + init;
      TotalPenaltyAppend(fs, init);
    }
  }

  /** The dict `assess_creditworthiness` returns. */
  datatype CreditAssessment = CreditAssessment(score: int, grade: Grade, riskFactors: seq<RiskFactor>)

  /** The category of one recommendation dict; its priority and text follow from it. */
  datatype RecCategory = Liquidity | Profitability | Leverage

  /** Position of a category in the rule order of `generate_recommendations`. */
  function RuleOrder(c: RecCategory): nat
  {
    match c
    case Liquidity => 0
    case Profitability => 1
    case Leverage => 2
  }

  /** Categories appear at most once each, in rule order. */
  predicate InRuleOrder(recs: seq<RecCategory>)
  {
    forall i, j :: 0 <= i < j < |recs| ==> RuleOrder(recs[i]) < RuleOrder(recs[j])
  }
}
