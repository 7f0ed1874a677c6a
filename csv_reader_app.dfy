/**
 * The CSV upload app of app_csv_reader.py: `parse_csv` buckets rows by
 * account name alone and takes net income only from positive amounts, then
 * the upload route computes three ratios, a four-rule score, its grade and
 * risk level, and up to four advice lines in a fixed order.
 */
module CsvReaderApp {
  import opened Common
  import opened CsvLedger

  // ---------------------------------------------------------------------
  // Bucketing (parse_csv)

  /**
   * The if/elif chain on the lower-cased account name: revenue/sales, then
   * net income (positive amounts only), then cash/receivable/inventory,
   * payable/short-term/credit, loan/debt and equity.
   */
  function Classify(row: CsvRow): (b: Option<Bucket>)
    ensures var a := Lower(row.account);
      (Contains(a, "revenue") || Contains(a, "sales") <==> b == Some(Revenue)) &&
      (b == Some(NetIncome) <==> !(Contains(a, "revenue") || Contains(a, "sales")) &&
                                 Contains(a, "net income") && row.amount > 0.0)
  {
    var a := Lower(row.account);
    if Contains(a, "revenue") || Contains(a, "sales") then Some(Revenue)
    else if Contains(a, "net income") && row.amount > 0.0 then Some(NetIncome)
    else if Contains(a, "cash") || Contains(a, "receivable") || Contains(a, "inventory") then Some(CurrentAssets)
    else if Contains(a, "payable") || Contains(a, "short-term") || Contains(a, "credit") then Some(CurrentLiabilities)
    else if Contains(a, "loan") || Contains(a, "debt") then Some(TotalDebt)
    else if Contains(a, "equity") then Some(TotalEquity)
    else None
  }

  /** `for row in reader: ...` over already-parsed rows. */
  method ParseCsv(rows: seq<CsvRow>) returns (data: Totals)
    ensures data == Ledger(rows, Classify)
  {
    data := Zero;
    var i := 0;
    while i < |rows|
      invariant 0 <= i <= |rows|
      invariant data == Ledger(rows[..i], Classify)
    {
      var row := rows[i];
      var before := data;
      var account := Lower(row.account);
      var amount := row.amount;
      if Contains(account, "revenue") || Contains(account, "sales") {
        data := data.(revenue := data.revenue + amount);
        assert Classify(row) == Some(Revenue);
      } else if Contains(account, "net income") && amount > 0.0 {
        data := data.(netIncome := amount);
        assert Classify(row) == Some(NetIncome);
      } else if Contains(account, "cash") || Contains(account, "receivable") || Contains(account, "inventory") {
        data := data.(currentAssets := data.currentAssets + amount);
        assert Classify(row) == Some(CurrentAssets);
      } else if Contains(account, "payable") || Contains(account, "short-term") || Contains(account, "credit") {
        data := data.(currentLiabilities := data.currentLiabilities + amount);
        assert Classify(row) == Some(CurrentLiabilities);
      } else if Contains(account, "loan") || Contains(account, "debt") {
        data := data.(totalDebt := data.totalDebt + amount);
        assert Classify(row) == Some(TotalDebt);
      } else if Contains(account, "equity") {
        data := data.(totalEquity := data.totalEquity + amount);
        assert Classify(row) == Some(TotalEquity);
      } else {
        assert Classify(row) == None;
      }
      assert data == Step(before, row, Classify);
      LedgerSnoc(rows[..i], row, Classify);
      assert rows[..i + 1] == rows[..i] + [row];
      i := i + 1;
    }
    assert rows[..i] == rows;
  }

  /** Net income starts at 0 and is only ever replaced by a positive amount. */
  lemma {:induction false} NetIncomeNonNegative(rows: seq<CsvRow>)
    ensures Ledger(rows, Classify).netIncome >= 0.0
  {
    if |rows| > 0 {
      NetIncomeNonNegative(rows[..|rows| - 1]);
      var before := Ledger(rows[..|rows| - 1], Classify);
      var row := rows[|rows| - 1];
      assert Field(before, NetIncome) == before.netIncome;
      assert Ledger(rows, Classify).netIncome == Field(Step(before, row, Classify), NetIncome);
    }
  }

  // ---------------------------------------------------------------------
  // Scoring (the upload route)

  function CurrentRatio(d: Totals): real
  {
    d.currentAssets / Floor1(d.currentLiabilities)
  }

  /** A percentage over a revenue floored at 1. */
  function ProfitMargin(d: Totals): real
  {
    d.netIncome / Floor1(d.revenue) * 100.0
  }

  function DebtRatio(d: Totals): real
  {
    d.totalDebt / Floor1(d.totalEquity)
  }

  /** After parsing the margin cannot be negative: net income is not, and the floored revenue is positive. */
  lemma ParsedMarginNonNegative(rows: seq<CsvRow>)
    ensures ProfitMargin(Ledger(rows, Classify)) >= 0.0
  {
    NetIncomeNonNegative(rows);
  }

  /** The raw score: four independent rules taking 30, 25, 20 and 15. */
  function RawScore(currentRatio: real, profitMargin: real, debtRatio: real): int
  {
    100 - (if currentRatio < 1.0 then 30 else 0)
      - (if profitMargin < 5.0 then 25 else 0)
      - (if debtRatio > 1.0 then 20 else 0)
      - (if profitMargin < 0.0 then 15 else 0)
  }

  /**
   * A negative margin also pays the below-5 penalty, so the score never
   * falls below 10 and `max(score, 0)` never binds; with a parsed statement
   * the last rule cannot fire, so the score never falls below 25.
   */
  lemma RawScoreRange(currentRatio: real, profitMargin: real, debtRatio: real)
    ensures 10 <= RawScore(currentRatio, profitMargin, debtRatio) <= 100
    ensures profitMargin >= 0.0 ==> 25 <= RawScore(currentRatio, profitMargin, debtRatio)
  {
  }

  datatype ReaderAdvice = CriticalLiquidity | UrgentCosts | HighPriorityDebt | EmergencyLosses

  function AdviceText(a: ReaderAdvice): string
  {
    match a
    case CriticalLiquidity => "Critical: Improve liquidity immediately - current ratio too low"
    case UrgentCosts => "Urgent: Focus on cost reduction and pricing optimization"
    case HighPriorityDebt => "High Priority: Reduce debt burden through restructuring"
    case EmergencyLosses => "Emergency: Business is losing money - immediate action required"
  }

  function AdviceOrder(a: ReaderAdvice): nat
  {
    match a
    case CriticalLiquidity => 0
    case UrgentCosts => 1
    case HighPriorityDebt => 2
    case EmergencyLosses => 3
  }

  /** The four rules fire independently and append in rule order. */
  function Recommendations(currentRatio: real, profitMargin: real, debtRatio: real): (recs: seq<ReaderAdvice>)
    ensures forall i, j :: 0 <= i < j < |recs| ==> AdviceOrder(recs[i]) < AdviceOrder(recs[j])
    ensures CriticalLiquidity in recs <==> currentRatio < 1.2
    ensures UrgentCosts in recs <==> profitMargin < 5.0
    ensures HighPriorityDebt in recs <==> debtRatio > 1.5
    ensures EmergencyLosses in recs <==> profitMargin < 0.0
  {
    (if currentRatio < 1.2 then [CriticalLiquidity] else [])
      + (if profitMargin < 5.0 then [UrgentCosts] else [])
      + (if debtRatio > 1.5 then [HighPriorityDebt] else [])
      + (if profitMargin < 0.0 then [EmergencyLosses] else [])
  }

  /** The four independent penalty rules of the upload route. */
  method ScoreCredit(currentRatio: real, profitMargin: real, debtRatio: real) returns (score: int)
    ensures score == RawScore(currentRatio, profitMargin, debtRatio)
    ensures 10 <= score <= 100
    ensures profitMargin >= 0.0 ==> 25 <= score
  {
    score := 100;
    if currentRatio < 1.0 {
      score := score - 30;
    }
    if profitMargin < 5.0 {
      score := score - 25;
    }
    if debtRatio > 1.0 {
      score := score - 20;
    }
    if profitMargin < 0.0 {
      score := score - 15;
    }
    RawScoreRange(currentRatio, profitMargin, debtRatio);
  }

  /** The four advice rules of the upload route, appended in rule order. */
  method Advise(currentRatio: real, profitMargin: real, debtRatio: real) returns (recommendations: seq<ReaderAdvice>)
    ensures recommendations == Recommendations(currentRatio, profitMargin, debtRatio)
  {
    recommendations := [];
    if currentRatio < 1.2 {
      recommendations := recommendations + [CriticalLiquidity];
    }
    ghost var liquidity := recommendations;
    if profitMargin < 5.0 {
      recommendations := recommendations + [UrgentCosts];
    }
    ghost var costs := recommendations;
    if debtRatio > 1.5 {
      recommendations := recommendations + [HighPriorityDebt];
    }
    ghost var debt := recommendations;
    if profitMargin < 0.0 {
      recommendations := recommendations + [EmergencyLosses];
    }
    assert liquidity == (if currentRatio < 1.2 then [CriticalLiquidity] else []);
    assert costs == liquidity + (if profitMargin < 5.0 then [UrgentCosts] else []);
    assert debt == costs + (if debtRatio > 1.5 then [HighPriorityDebt] else []);
  }

  datatype UploadResult = UploadResult(
    creditScore: int,
    grade: Grade,
    currentRatio: real,
    profitMargin: real,
    debtRatio: real,
    riskLevel: Level,
    recommendations: seq<ReaderAdvice>)

  /**
   * The upload computation. Because parsing keeps net income non-negative,
   * the losing-money penalty and the Emergency line never occur.
   */
  method Upload(rows: seq<CsvRow>, businessType: string) returns (r: UploadResult)
    ensures var d := Ledger(rows, Classify);
      r.currentRatio == CurrentRatio(d) && r.profitMargin == ProfitMargin(d) && r.debtRatio == DebtRatio(d)
    ensures var raw := RawScore(r.currentRatio, r.profitMargin, r.debtRatio);
      r.creditScore == raw && r.grade == CreditGrade(raw) && r.riskLevel == RiskLevel(raw)
    ensures 25 <= r.creditScore <= 100
    ensures r.recommendations == Recommendations(r.currentRatio, r.profitMargin, r.debtRatio)
    ensures EmergencyLosses !in r.recommendations
  {
    var data := ParseCsv(rows);
    ParsedMarginNonNegative(rows);

    var currentRatio := data.currentAssets / Floor1(data.currentLiabilities);
    var profitMargin := data.netIncome / Floor1(data.revenue) * 100.0;
    var debtRatio := data.totalDebt / Floor1(data.totalEquity);
    assert currentRatio == CurrentRatio(data) && profitMargin == ProfitMargin(data) && debtRatio == DebtRatio(data);

    var score := ScoreCredit(currentRatio, profitMargin, debtRatio);

    var grade := CreditGrade(score);
    var riskLevel := RiskLevel(score);

    var recommendations := Advise(currentRatio, profitMargin, debtRatio);

    r := UploadResult(if score >= 0 then score else 0, grade, currentRatio, profitMargin, debtRatio,
                      riskLevel, recommendations);
  }
}
