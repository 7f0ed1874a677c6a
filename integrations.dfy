/**
 * The analysis helpers of integrations.py, over data that has already been
 * fetched: monthly cash-flow aggregation of bank transactions and its risk
 * flags, the GST compliance score, the tax-saving suggestions, the payment
 * method counts and success rate, and the integrated insights that run the
 * banking analysis over every bank that synced successfully.
 */
module Integrations {
  import opened Common

  // ---------------------------------------------------------------------
  // Banking (BankingIntegration.analyze_banking_data)

  /** A transaction record: its optional 'date' and its 'amount'. */
  datatype Transaction = Transaction(date: Option<string>, amount: real)

  /** A banking response; `transactions` is `None` when the key is absent. */
  datatype BankingData = BankingData(status: Option<string>, transactions: Option<seq<Transaction>>)

  function Abs(x: real): real { if x < 0.0 then -x else x }

  /** `transaction.get('date', '')[:7]`, the YYYY-MM key. */
  function MonthOf(t: Transaction): string
  {
    Take(if t.date.Some? then t.date.value else "", 7)
  }

  /** `m[k] = m.get(k, 0) + v` */
  function AddTo(m: map<string, real>, k: string, v: real): (r: map<string, real>)
    ensures r.Keys == m.Keys + {k}
    ensures r[k] == Get(m, k, 0.0) + v
    ensures forall k' :: k' in m && k' != k ==> r[k'] == m[k']
  {
    m[k := Get(m, k, 0.0) + v]
  }

  /** The inflow dict after the loop has visited `txs`: positive amounts, by month. */
  function Inflows(txs: seq<Transaction>): map<string, real>
  {
    if |txs| == 0 then map[]
    else
      var t := txs[|txs| - 1];
      var before := Inflows(txs[..|txs| - 1]);
      if t.amount > 0.0 then AddTo(before, MonthOf(t), t.amount) else before
  }

  /** The outflow dict: the absolute value of every zero or negative amount, by month. */
  function Outflows(txs: seq<Transaction>): map<string, real>
  {
    if |txs| == 0 then map[]
    else
      var t := txs[|txs| - 1];
      var before := Outflows(txs[..|txs| - 1]);
      if t.amount > 0.0 then before else AddTo(before, MonthOf(t), Abs(t.amount))
  }

  lemma FlowsSnoc(txs: seq<Transaction>, t: Transaction)
    ensures Inflows(txs + [t]) == if t.amount > 0.0 then AddTo(Inflows(txs), MonthOf(t), t.amount) else Inflows(txs)
    ensures Outflows(txs + [t]) == if t.amount > 0.0 then Outflows(txs) else AddTo(Outflows(txs), MonthOf(t), Abs(t.amount))
  {
    assert (txs + [t])[..|txs|] == txs;
  }

  /** The net flow over the union of both dicts' months, a missing side reading as 0. */
  function NetCashFlow(inflows: map<string, real>, outflows: map<string, real>): (net: map<string, real>)
    ensures net.Keys == inflows.Keys + outflows.Keys
    ensures forall m :: m in net ==> net[m] == Get(inflows, m, 0.0) - Get(outflows, m, 0.0)
  {
    map m | m in inflows.Keys + outflows.Keys :: Get(inflows, m, 0.0) - Get(outflows, m, 0.0)
  }

  /** The sum of the positive amounts dated in `month`. */
  function MonthInflow(txs: seq<Transaction>, month: string): real
  {
    if |txs| == 0 then 0.0
    else
      var t := txs[|txs| - 1];
      MonthInflow(txs[..|txs| - 1], month) + (if t.amount > 0.0 && MonthOf(t) == month then t.amount else 0.0)
  }

  /** The sum of the absolute values of the other amounts dated in `month`. */
  function MonthOutflow(txs: seq<Transaction>, month: string): real
  {
    if |txs| == 0 then 0.0
    else
      var t := txs[|txs| - 1];
      MonthOutflow(txs[..|txs| - 1], month) + (if t.amount <= 0.0 && MonthOf(t) == month then Abs(t.amount) else 0.0)
  }

  /**
   * Each month's entries are exactly the per-month sums: a month is in the
   * inflow (outflow) dict iff some positive (other) amount is dated in it,
   * and every total is non-negative.
   */
  lemma {:induction false} FlowsPerMonth(txs: seq<Transaction>, month: string)
    ensures Get(Inflows(txs), month, 0.0) == MonthInflow(txs, month)
    ensures Get(Outflows(txs), month, 0.0) == MonthOutflow(txs, month)
    ensures month in Inflows(txs) <==> exists i :: 0 <= i < |txs| && txs[i].amount > 0.0 && MonthOf(txs[i]) == month
    ensures month in Outflows(txs) <==> exists i :: 0 <= i < |txs| && txs[i].amount <= 0.0 && MonthOf(txs[i]) == month
    ensures MonthInflow(txs, month) >= 0.0 && MonthOutflow(txs, month) >= 0.0
  {
    if |txs| > 0 {
      var init := txs[..|txs| - 1];
      FlowsPerMonth(init, month);
      forall i | 0 <= i < |init|
        ensures init[i] == txs[i]
      {
      }
      var t := txs[|txs| - 1];
      if t.amount > 0.0 && MonthOf(t) == month {
        assert txs[|txs| - 1].amount > 0.0 && MonthOf(txs[|txs| - 1]) == month;
      }
      if t.amount <= 0.0 && MonthOf(t) == month {
        assert txs[|txs| - 1].amount <= 0.0 && MonthOf(txs[|txs| - 1]) == month;
      }
    }
  }

  /** The number of transactions whose absolute amount exceeds 100000. */
  function LargeCount(txs: seq<Transaction>): (n: nat)
    ensures n <= |txs|
  {
    if |txs| == 0 then 0
    else LargeCount(txs[..|txs| - 1]) + (if Abs(txs[|txs| - 1].amount) > 100000.0 then 1 else 0)
  }

  datatype CashFlowAnalysis = CashFlowAnalysis(
    monthlyInflows: map<string, real>,
    monthlyOutflows: map<string, real>,
    netCashFlow: map<string, real>)

  datatype BankRisk = NegativeCashFlowMonths | FrequentLargeTransactions

  function BankRiskText(r: BankRisk): string
  {
    match r
    case NegativeCashFlowMonths => "Negative cash flow detected in some months"
    case FrequentLargeTransactions => "High frequency of large transactions"
  }

  /** `cash_flow_analysis` is `None` where the source leaves it `{}`. */
  datatype BankingInsights = BankingInsights(cashFlowAnalysis: Option<CashFlowAnalysis>, riskIndicators: seq<BankRisk>)

  predicate HasNegativeMonth(net: map<string, real>)
  {
    exists m :: m in net && net[m] < 0.0
  }

  predicate TooManyLarge(txs: seq<Transaction>)
  {
    (LargeCount(txs) as real) > (|txs| as real) * 0.1
  }

  /** What `analyze_banking_data` returns. */
  function BankingInsightsOf(bd: BankingData): BankingInsights
  {
    match bd.transactions
    case None => BankingInsights(None, [])
    case Some(txs) =>
      var net := NetCashFlow(Inflows(txs), Outflows(txs));
      BankingInsights(Some(CashFlowAnalysis(Inflows(txs), Outflows(txs), net)),
                      (if HasNegativeMonth(net) then [NegativeCashFlowMonths] else [])
                      + (if TooManyLarge(txs) then [FrequentLargeTransactions] else []))
  }

  /** The transaction loop of `analyze_banking_data`: the two monthly dicts. */
  method AggregateMonths(transactions: seq<Transaction>)
    returns (monthlyInflows: map<string, real>, monthlyOutflows: map<string, real>)
    ensures monthlyInflows == Inflows(transactions)
    ensures monthlyOutflows == Outflows(transactions)
  {
    monthlyInflows := map[];
    monthlyOutflows := map[];
    var i := 0;
    while i < |transactions|
      invariant 0 <= i <= |transactions|
      invariant monthlyInflows == Inflows(transactions[..i])
      invariant monthlyOutflows == Outflows(transactions[..i])
    {
      var t := transactions[i];
      var month := MonthOf(t);
      var amount := t.amount;
      FlowsSnoc(transactions[..i], t);
      assert transactions[..i + 1] == transactions[..i] + [t];
      if amount > 0.0 {
        monthlyInflows := AddTo(monthlyInflows, month, amount);
      } else {
        monthlyOutflows := AddTo(monthlyOutflows, month, Abs(amount));
      }
      i := i + 1;
    }
    assert transactions[..i] == transactions;
  }

  method AnalyzeBankingData(bd: BankingData) returns (insights: BankingInsights)
    ensures insights == BankingInsightsOf(bd)
    ensures bd.transactions.None? ==> insights.cashFlowAnalysis.None? && insights.riskIndicators == []
  {
    if bd.transactions.None? {
      return BankingInsights(None, []);
    }
    var transactions := bd.transactions.value;

    var monthlyInflows, monthlyOutflows := AggregateMonths(transactions);

    var net := NetCashFlow(monthlyInflows, monthlyOutflows);
    var riskIndicators: seq<BankRisk> := [];
    if HasNegativeMonth(net) {
      riskIndicators := riskIndicators + [NegativeCashFlowMonths];
    }
    if (LargeCount(transactions) as real) > (|transactions| as real) * 0.1 {
      riskIndicators := riskIndicators + [FrequentLargeTransactions];
    }
    insights := BankingInsights(Some(CashFlowAnalysis(monthlyInflows, monthlyOutflows, net)), riskIndicators);
  }

  /**
   * The negative-cash-flow flag is raised exactly when some month's
   * outgoing amounts exceed its incoming ones.
   */
  lemma NegativeFlagIffOutflowExceedsInflow(txs: seq<Transaction>)
    ensures NegativeCashFlowMonths in BankingInsightsOf(BankingData(None, Some(txs))).riskIndicators <==>
      exists m :: MonthOutflow(txs, m) > MonthInflow(txs, m)
  {
    var inflows, outflows := Inflows(txs), Outflows(txs);
    var net := NetCashFlow(inflows, outflows);
    var flags := BankingInsightsOf(BankingData(None, Some(txs))).riskIndicators;
    assert NegativeCashFlowMonths in flags <==> HasNegativeMonth(net);
    if HasNegativeMonth(net) {
      var m :| m in net && net[m] < 0.0;
      FlowsPerMonth(txs, m);
    }
    if exists m :: MonthOutflow(txs, m) > MonthInflow(txs, m) {
      var m :| MonthOutflow(txs, m) > MonthInflow(txs, m);
      FlowsPerMonth(txs, m);
      assert m in outflows;
      assert net[m] < 0.0;
    }
  }

  // ---------------------------------------------------------------------
  // GST (GSTIntegration.analyze_gst_compliance, generate_tax_optimization_suggestions)

  /**
   * A GST response: the `gstr3b` dict (`None` when absent), the filing and
   * due dates (`None` when absent), and the top-level figures.
   */
  datatype GstData = GstData(
    gstr3b: Option<Statement>,
    filingDate: Option<string>,
    dueDate: Option<string>,
    figures: Statement)

  /** Python truthiness of an optional dict or string: present and non-empty. */
  predicate TruthyMap(m: Option<Statement>) { m.Some? && |m.value| > 0 }

  predicate TruthyString(s: Option<string>) { s.Some? && |s.value| > 0 }

  /** Filed after the due date, comparing the date strings as Python does. */
  predicate LateFiling(g: GstData)
  {
    TruthyString(g.filingDate) && TruthyString(g.dueDate) && LexGreater(g.filingDate.value, g.dueDate.value)
  }

  datatype TaxEfficiency = TaxEfficiency(effectiveTaxRate: real, inputCreditRatio: real)

  datatype GstIssue = LateFilingDetected

  datatype GstAdvice = DocumentInputCredit

  datatype ComplianceAnalysis = ComplianceAnalysis(
    complianceScore: int,
    issues: seq<GstIssue>,
    recommendations: seq<GstAdvice>,
    taxEfficiency: Option<TaxEfficiency>)

  /**
   * The compliance analysis as a value: without a non-empty gstr3b the
   * score stays 100 and nothing else is reported; with one, a late filing
   * costs 20 and is listed, a high input credit draws the documentation
   * advice, and the tax efficiency divides by the turnover (default 1).
   */
  function GstCompliance(g: GstData): (r: Result<ComplianceAnalysis>)
    ensures r.Err? <==> TruthyMap(g.gstr3b) && Get(g.gstr3b.value, "turnover", 1.0) == 0.0
    ensures r.Ok? ==> r.value.complianceScore in {80, 100}
    ensures r.Ok? ==> (r.value.complianceScore == 80 <==> TruthyMap(g.gstr3b) && LateFiling(g))
  {
    if !TruthyMap(g.gstr3b) then Ok(ComplianceAnalysis(100, [], [], None))
    else
      var s := g.gstr3b.value;
      var tl := Get(s, "tax_liability", 0.0);
      var ic := Get(s, "input_tax_credit", 0.0);
      var turnover := Get(s, "turnover", 1.0);
      if turnover == 0.0 then Err(ZeroDivision("turnover"))
      else Ok(ComplianceAnalysis(
        if LateFiling(g) then 80 else 100,
        if LateFiling(g) then [LateFilingDetected] else [],
        if ic > tl * 0.8 then [DocumentInputCredit] else [],
        Some(TaxEfficiency(tl / turnover * 100.0, if tl > 0.0 then ic / tl * 100.0 else 0.0))))
  }

  /**
   * Without a non-empty gstr3b nothing is analysed and the score stays 100.
   * With one, a late filing costs 20 and is reported; a high input credit
   * draws the documentation advice; the effective tax rate divides by the
   * turnover (default 1) unguarded, so a zero turnover raises.
   */
  method AnalyzeGstCompliance(g: GstData) returns (r: Result<ComplianceAnalysis>)
    ensures r == GstCompliance(g)
    ensures r.Err? <==> TruthyMap(g.gstr3b) && Get(g.gstr3b.value, "turnover", 1.0) == 0.0
    ensures r.Ok? && !TruthyMap(g.gstr3b) ==> r.value == ComplianceAnalysis(100, [], [], None)
    ensures r.Ok? && TruthyMap(g.gstr3b) ==>
      var s := g.gstr3b.value;
      var tl := Get(s, "tax_liability", 0.0);
      var ic := Get(s, "input_tax_credit", 0.0);
      r.value.complianceScore == (if LateFiling(g) then 80 else 100) &&
      r.value.issues == (if LateFiling(g) then [LateFilingDetected] else []) &&
      r.value.recommendations == (if ic > tl * 0.8 then [DocumentInputCredit] else []) &&
      r.value.taxEfficiency == Some(TaxEfficiency(tl / Get(s, "turnover", 1.0) * 100.0,
                                                  if tl > 0.0 then ic / tl * 100.0 else 0.0))
    ensures r.Ok? ==> r.value.complianceScore in {80, 100}
  {
    var score := 100;
    var issues: seq<GstIssue> := [];
    var recommendations: seq<GstAdvice> := [];

    if !TruthyMap(g.gstr3b) {
      return Ok(ComplianceAnalysis(score, issues, recommendations, None));
    }
    var gstr3b := g.gstr3b.value;

    if TruthyString(g.filingDate) && TruthyString(g.dueDate) {
      if LexGreater(g.filingDate.value, g.dueDate.value) {
        score := score - 20;
        issues := issues + [LateFilingDetected];
        assert issues == [LateFilingDetected];
      }
    }

    var taxLiability := Get(gstr3b, "tax_liability", 0.0);
    var inputCredit := Get(gstr3b, "input_tax_credit", 0.0);
    if inputCredit > taxLiability * 0.8 {
      recommendations := recommendations + [DocumentInputCredit];
      assert recommendations == [DocumentInputCredit];
    }

    var turnover := Get(gstr3b, "turnover", 1.0);
    if turnover == 0.0 {
      return Err(ZeroDivision("turnover"));
    }
    var effectiveTaxRate := taxLiability / turnover * 100.0;
    var inputCreditRatio := if taxLiability > 0.0 then inputCredit / taxLiability * 100.0 else 0.0;
    r := Ok(ComplianceAnalysis(score, issues, recommendations, Some(TaxEfficiency(effectiveTaxRate, inputCreditRatio))));
  }

  /** A return filed on its due date is on time: string `>` is irreflexive. */
  lemma FilingOnDueDateIsOnTime(g: GstData)
    requires g.filingDate == g.dueDate
    ensures !LateFiling(g)
  {
    if g.filingDate.Some? {
      LexGreaterIrreflexive(g.filingDate.value);
    }
  }

  /**
   * With a positive liability the documentation advice and the reported
   * input credit ratio agree: the advice is given iff the ratio exceeds 80.
   */
  lemma AdviceAgreesWithRatio(tl: real, ic: real)
    requires tl > 0.0
    ensures ic > tl * 0.8 <==> ic / tl * 100.0 > 80.0
  {
    if ic > tl * 0.8 {
      assert ic / tl > 0.8 by {
        assert ic / tl * tl == ic;
      }
    } else {
      assert ic / tl <= 0.8 by {
        assert ic / tl * tl == ic;
      }
    }
  }

  datatype TaxCategory = InputTaxCredit | TaxStructure

  datatype TaxSuggestion = TaxSuggestion(category: TaxCategory, potentialSavings: real)

  function TaxSuggestionText(c: TaxCategory): string
  {
    match c
    case InputTaxCredit => "Improve input tax credit utilization by ensuring all eligible purchases are claimed"
    case TaxStructure => "Consider opting for composition scheme to reduce tax burden"
  }

  /**
   * The input-credit rule divides by the liability unguarded, so a zero
   * liability beside an input credit raises. Otherwise the ITC suggestion
   * comes first, when utilisation is below 70%, saving 10% of the
   * liability; the composition-scheme suggestion follows when revenue is
   * under 1,500,000 and 1% of it is below the current tax, saving the
   * difference, which is then positive.
   */
  method GenerateTaxOptimizationSuggestions(g: GstData, financialData: Statement)
    returns (r: Result<seq<TaxSuggestion>>)
    ensures r.Err? <==> "input_tax_credit" in g.figures && "tax_liability" in g.figures &&
                         g.figures["tax_liability"] == 0.0
    ensures r.Ok? ==>
      var f := g.figures;
      var itc := "input_tax_credit" in f && "tax_liability" in f &&
                 f["input_tax_credit"] / f["tax_liability"] * 100.0 < 70.0;
      var rev := Get(financialData, "revenue", 0.0);
      var currentTax := Get(f, "tax_liability", 0.0);
      var composition := rev < 1500000.0 && rev * 0.01 < currentTax;
      r.value == (if itc then [TaxSuggestion(InputTaxCredit, f["tax_liability"] * 0.1)] else [])
                 + (if composition then [TaxSuggestion(TaxStructure, currentTax - rev * 0.01)] else [])
    ensures r.Ok? ==> |r.value| <= 2 && forall i :: 0 <= i < |r.value| && r.value[i].category == TaxStructure ==>
      r.value[i].potentialSavings > 0.0
  {
    var suggestions: seq<TaxSuggestion> := [];

    if "input_tax_credit" in g.figures && "tax_liability" in g.figures {
      if g.figures["tax_liability"] == 0.0 {
        return Err(ZeroDivision("tax_liability"));
      }
      var itcUtilization := g.figures["input_tax_credit"] / g.figures["tax_liability"] * 100.0;
      if itcUtilization < 70.0 {
        suggestions := suggestions + [TaxSuggestion(InputTaxCredit, g.figures["tax_liability"] * 0.1)];
      }
    }

    var revenue := Get(financialData, "revenue", 0.0);
    if revenue < 1500000.0 {
      var currentTax := Get(g.figures, "tax_liability", 0.0);
      var compositionTax := revenue * 0.01;
      if compositionTax < currentTax {
        suggestions := suggestions + [TaxSuggestion(TaxStructure, currentTax - compositionTax)];
      }
    }
    r := Ok(suggestions);
  }

  /** With a positive liability the ITC rule fires iff the credit is under 70% of it. */
  lemma ItcRuleAsShare(tl: real, ic: real)
    requires tl > 0.0
    ensures ic / tl * 100.0 < 70.0 <==> ic < tl * 0.7
  {
    assert ic / tl * tl == ic;
    if ic < tl * 0.7 {
      assert ic / tl < 0.7;
    }
  }

  // ---------------------------------------------------------------------
  // Payments (PaymentGatewayIntegration.analyze_payment_patterns)

  /** A payment record: its optional 'method' and 'status'. */
  datatype Payment = Payment(paymentMethod: Option<string>, status: Option<string>)

  function MethodOf(p: Payment): string
  {
    if p.paymentMethod.Some? then p.paymentMethod.value else "unknown"
  }

  /** `counts[m] = counts.get(m, 0) + 1` */
  function Bump(counts: map<string, nat>, m: string): map<string, nat>
  {
    counts[m := (if m in counts then counts[m] else 0) + 1]
  }

  /** The per-method counts after the loop has visited `ps`. */
  function MethodCounts(ps: seq<Payment>): map<string, nat>
  {
    if |ps| == 0 then map[]
    else
      Bump(MethodCounts(ps[..|ps| - 1]), MethodOf(ps[|ps| - 1]))
  }

  /** Some key of a non-empty count dict. */
  ghost function Pick(counts: map<string, nat>): (k: string)
    requires |counts| > 0
    ensures k in counts
  {
    var k :| k in counts; k
  }

  /** The sum of a count dict's values. */
  ghost function Total(counts: map<string, nat>): nat
    decreases |counts|
  {
    if |counts| == 0 then 0
    else
      var k := Pick(counts);
      counts[k] + Total(counts - {k})
  }

  /** The total does not depend on which key is taken out first. */
  lemma {:induction false} TotalRemove(counts: map<string, nat>, k: string)
    requires k in counts
    ensures Total(counts) == counts[k] + Total(counts - {k})
    decreases |counts|
  {
    var k' := Pick(counts);
    if k' != k {
      var rest := counts - {k'};
      var rest2 := counts - {k};
      assert |rest| == |counts| - 1 && |rest2| == |counts| - 1 by {
        assert rest.Keys == counts.Keys - {k'};
        assert rest2.Keys == counts.Keys - {k};
      }
      TotalRemove(rest, k);
      TotalRemove(rest2, k');
      assert rest - {k} == rest2 - {k'};
    }
  }

  lemma TotalIncrement(counts: map<string, nat>, k: string)
    ensures Total(Bump(counts, k)) == Total(counts) + 1
  {
    var c := Bump(counts, k);
    TotalRemove(c, k);
    assert c - {k} == counts - {k};
    if k in counts {
      TotalRemove(counts, k);
    } else {
      assert counts - {k} == counts;
    }
  }

  /** Every payment is counted under exactly one method: the counts sum to the number of payments. */
  lemma {:induction false} CountsSumToPayments(ps: seq<Payment>)
    ensures Total(MethodCounts(ps)) == |ps|
  {
    if |ps| > 0 {
      CountsSumToPayments(ps[..|ps| - 1]);
      TotalIncrement(MethodCounts(ps[..|ps| - 1]), MethodOf(ps[|ps| - 1]));
    }
  }

  /** The number of payments whose status is 'captured'. */
  function CapturedCount(ps: seq<Payment>): (n: nat)
    ensures n <= |ps|
  {
    if |ps| == 0 then 0
    else CapturedCount(ps[..|ps| - 1]) + (if ps[|ps| - 1].status == Some("captured") then 1 else 0)
  }

  datatype SuccessRates = SuccessRates(overallSuccessRate: real, totalSuccessful: nat, totalAttempted: nat)

  /** A count out of a positive total, as a percentage, lies in [0, 100]. */
  lemma ShareBound(part: nat, total: nat)
    requires 0 < total && part <= total
    ensures 0.0 <= (part as real) / (total as real) * 100.0 <= 100.0
  {
    assert (part as real) / (total as real) * (total as real) == part as real;
  }

  /** `payment_methods` and `success_rates`; the latter is `None` where the source leaves it `{}`. */
  datatype PaymentAnalysis = PaymentAnalysis(paymentMethods: map<string, nat>, successRates: Option<SuccessRates>)

  /**
   * Counts per method (missing methods as 'unknown') and the captured share
   * as a percentage, 0 when there are no payments.
   */
  method AnalyzePaymentPatterns(payments: Option<seq<Payment>>) returns (a: PaymentAnalysis)
    ensures payments.None? ==> a == PaymentAnalysis(map[], None)
    ensures payments.Some? ==>
      a.paymentMethods == MethodCounts(payments.value) &&
      a.successRates.Some? &&
      a.successRates.value.totalSuccessful == CapturedCount(payments.value) &&
      a.successRates.value.totalAttempted == |payments.value|
    ensures payments.Some? ==> var rates := a.successRates.value;
      rates.totalSuccessful <= rates.totalAttempted &&
      0.0 <= rates.overallSuccessRate <= 100.0 &&
      (rates.totalAttempted == 0 ==> rates.overallSuccessRate == 0.0) &&
      (rates.totalAttempted > 0 ==>
        rates.overallSuccessRate == (rates.totalSuccessful as real) / (rates.totalAttempted as real) * 100.0)
  {
    if payments.None? {
      return PaymentAnalysis(map[], None);
    }
    var ps := payments.value;

    var paymentMethods: map<string, nat> := map[];
    var i := 0;
    while i < |ps|
      invariant 0 <= i <= |ps|
      invariant paymentMethods == MethodCounts(ps[..i])
    {
      assert ps[..i + 1][..i] == ps[..i];
      var m := MethodOf(ps[i]);
      paymentMethods := Bump(paymentMethods, m);
      i := i + 1;
    }
    assert ps[..i] == ps;

    var successful := CapturedCount(ps);
    var total := |ps|;
    var rate := if total > 0 then (successful as real) / (total as real) * 100.0 else 0.0;
    if total > 0 {
      ShareBound(successful, total);
    }
    a := PaymentAnalysis(paymentMethods, Some(SuccessRates(rate, successful, total)));
  }

  // ---------------------------------------------------------------------
  // Integrated insights (FinancialIntegrationManager.generate_integrated_insights)

  /** The synced data: one banking response per bank, and the GST data when it is non-empty. */
  datatype SyncedData = SyncedData(bankingData: map<string, BankingData>, gstData: Option<GstData>)

  datatype IntegratedInsights = IntegratedInsights(
    cashFlowReconciliation: map<string, Option<CashFlowAnalysis>>,
    complianceStatus: Option<ComplianceAnalysis>)

  predicate Synced(b: BankingData) { b.status == Some("success") }

  /**
   * Only banks whose status is 'success' are analysed and reported; the GST
   * analysis runs when there is GST data and its error propagates.
   */
  method GenerateIntegratedInsights(synced: SyncedData, financialData: Statement)
    returns (r: Result<IntegratedInsights>)
    ensures r.Ok? ==> (r.value.cashFlowReconciliation.Keys ==
      set b | b in synced.bankingData && Synced(synced.bankingData[b]))
    ensures r.Ok? ==> forall b :: b in r.value.cashFlowReconciliation ==>
      r.value.cashFlowReconciliation[b] == BankingInsightsOf(synced.bankingData[b]).cashFlowAnalysis
    ensures synced.gstData.None? ==> r.Ok? && r.value.complianceStatus.None?
    ensures r.Err? ==> synced.gstData.Some?
    ensures synced.gstData.Some? ==>
      (r.Err? <==> GstCompliance(synced.gstData.value).Err?) &&
      (r.Ok? ==> r.value.complianceStatus == Some(GstCompliance(synced.gstData.value).value))
  {
    var bankingCashFlow: map<string, Option<CashFlowAnalysis>> := map[];
    var remaining := synced.bankingData.Keys;
    while remaining != {}
      invariant remaining <= synced.bankingData.Keys
      invariant bankingCashFlow.Keys ==
        set b | b in synced.bankingData.Keys - remaining && Synced(synced.bankingData[b])
      invariant forall b :: b in bankingCashFlow ==>
        b in synced.bankingData && bankingCashFlow[b] == BankingInsightsOf(synced.bankingData[b]).cashFlowAnalysis
      decreases remaining
    {
      var bank :| bank in remaining;
      var data := synced.bankingData[bank];
      if data.status == Some("success") {
        var bankingInsights := AnalyzeBankingData(data);
        bankingCashFlow := bankingCashFlow[bank := bankingInsights.cashFlowAnalysis];
      }
      remaining := remaining - {bank};
    }

    var complianceStatus: Option<ComplianceAnalysis> := None;
    if synced.gstData.Some? {
      var gstCompliance := AnalyzeGstCompliance(synced.gstData.value);
      if gstCompliance.Err? {
        return Err(gstCompliance.error);
      }
      complianceStatus := Some(gstCompliance.value);
    }
    r := Ok(IntegratedInsights(bankingCashFlow, complianceStatus));
  }
}
