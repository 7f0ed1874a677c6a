/**
 * The CSV upload app of app_final.py: `parse_csv` buckets rows by account
 * name and type, then the upload route computes three ratios, a banded
 * credit score, its grade and risk level, and exactly two advice lines.
 */
module FinalApp {
  import opened Common
  import opened CsvLedger

  // ---------------------------------------------------------------------
  // Bucketing (parse_csv)

  /**
   * The if/elif chain on the lower-cased account name and type. Revenue or
   * sales wins over everything; a liability row that is not revenue or net
   * income always lands in current liabilities or total debt.
   */
  function Classify(row: CsvRow): (b: Option<Bucket>)
    ensures var a := Lower(row.account);
      (Contains(a, "revenue") || Contains(a, "sales") <==> b == Some(Revenue)) &&
      (b == Some(NetIncome) ==> Contains(a, "net income"))
  {
    var a := Lower(row.account);
    var ty := Lower(row.accountType);
    if Contains(a, "revenue") || Contains(a, "sales") then Some(Revenue)
    else if Contains(a, "net income") then Some(NetIncome)
    else if ty == "asset" && (Contains(a, "cash") || Contains(a, "receivable") || Contains(a, "inventory"))
      then Some(CurrentAssets)
    else if ty == "liability" && (Contains(a, "payable") || Contains(a, "short-term") || Contains(a, "credit"))
      then Some(CurrentLiabilities)
    else if ty == "liability" then Some(TotalDebt)
    else if ty == "equity" || Contains(a, "equity") then Some(TotalEquity)
    else None
  }

  /** A liability row outside the revenue and net-income rules is split by its name. */
  lemma LiabilitySplit(row: CsvRow)
    requires Lower(row.accountType) == "liability"
    requires Classify(row) != Some(Revenue) && Classify(row) != Some(NetIncome)
    ensures var a := Lower(row.account);
      Classify(row) == (if Contains(a, "payable") || Contains(a, "short-term") || Contains(a, "credit")
                        then Some(CurrentLiabilities) else Some(TotalDebt))
  {
    assert Lower(row.accountType) != "asset";
  }

  /** `for row in reader: ...` over already-parsed rows. */
  method ParseCsv(rows: seq<CsvRow>) returns (data: Totals)
    ensures data == Ledger(rows, Classify)
  {
    data := Zero;
    var i := 0;
    while i < |rows|
      invariant 0 <= i <= |rows|
      invariant data == Ledger(rows[..i], Classify)
    {
      var row := rows[i];
      var before := data;
      var account := Lower(row.account);
      var amount := row.amount;
      var accountType := Lower(row.accountType);
      if Contains(account, "revenue") || Contains(account, "sales") {
        data := data.(revenue := data.revenue + amount);
        assert Classify(row) == Some(Revenue);
      } else if Contains(account, "net income") {
        data := data.(netIncome := amount);
        assert Classify(row) == Some(NetIncome);
      } else if accountType == "asset" &&
                (Contains(account, "cash") || Contains(account, "receivable") || Contains(account, "inventory")) {
        data := data.(currentAssets := data.currentAssets + amount);
        assert Classify(row) == Some(CurrentAssets);
      } else if accountType == "liability" &&
                (Contains(account, "payable") || Contains(account, "short-term") || Contains(account, "credit")) {
        data := data.(currentLiabilities := data.currentLiabilities + amount);
        assert Classify(row) == Some(CurrentLiabilities);
      } else if accountType == "liability" {
        data := data.(totalDebt := data.totalDebt + amount);
        assert Classify(row) == Some(TotalDebt);
      } else if accountType == "equity" || Contains(account, "equity") {
        data := data.(totalEquity := data.totalEquity + amount);
        assert Classify(row) == Some(TotalEquity);
      } else {
        assert Classify(row) == None;
      }
      assert data == Step(before, row, Classify);
      LedgerSnoc(rows[..i], row, Classify);
      assert rows[..i + 1] == rows[..i] + [row];
      i := i + 1;
    }
    assert rows[..i] == rows;
  }

  /** Revenue sums every revenue row; a later net-income row replaces an earlier one. */
  lemma RevenueAccumulatesNetIncomeOverwrites(rows: seq<CsvRow>)
    ensures Ledger(rows, Classify).revenue == BucketSum(rows, Classify, Revenue)
    ensures Ledger(rows, Classify).netIncome == LastNetIncome(rows, Classify)
  {
    LedgerAccumulates(rows, Classify, Revenue);
    LedgerNetIncomeIsLast(rows, Classify);
  }

  /**
   * Whatever came before, a net-income row sets net income to its own amount,
   * a loss included.
   */
  lemma NetIncomeRowOverwrites(rows: seq<CsvRow>, row: CsvRow)
    requires Classify(row) == Some(NetIncome)
    ensures Ledger(rows + [row], Classify).netIncome == row.amount
  {
    LedgerSnoc(rows, row, Classify);
  }

  // ---------------------------------------------------------------------
  // Scoring (the upload route)

  function CurrentRatio(d: Totals): real
  {
    d.currentAssets / Floor1(d.currentLiabilities)
  }

  /** A percentage; exactly -100 when there is no positive revenue. */
  function ProfitMargin(d: Totals): (pm: real)
    ensures d.revenue <= 0.0 ==> pm == -100.0
    ensures d.revenue > 0.0 ==> pm == d.netIncome / Floor1(d.revenue) * 100.0
  {
    if d.revenue > 0.0 then d.netIncome / Floor1(d.revenue) * 100.0 else -100.0
  }

  function DebtRatio(d: Totals): real
  {
    d.totalDebt / Floor1(d.totalEquity)
  }

  function LiquidityPenalty(currentRatio: real): int
  {
    if currentRatio < 0.5 then 40 else if currentRatio < 1.0 then 25 else if currentRatio < 1.2 then 10 else 0
  }

  function ProfitPenalty(profitMargin: real): int
  {
    if profitMargin < -10.0 then 35 else if profitMargin < 0.0 then 25
    else if profitMargin < 5.0 then 15 else if profitMargin < 10.0 then 5 else 0
  }

  function DebtPenalty(debtRatio: real): int
  {
    if debtRatio > 3.0 then 30 else if debtRatio > 2.0 then 20 else if debtRatio > 1.0 then 10 else 0
  }

  /** The raw score, before `max(score, 0)`. */
  function RawScore(currentRatio: real, profitMargin: real, debtRatio: real): int
  {
    100 - LiquidityPenalty(currentRatio) - ProfitPenalty(profitMargin) - DebtPenalty(debtRatio)
  }

  /** The raw score ranges over [-5, 100], and its worst case is reached. */
  lemma RawScoreRange(currentRatio: real, profitMargin: real, debtRatio: real)
    ensures -5 <= RawScore(currentRatio, profitMargin, debtRatio) <= 100
    ensures RawScore(0.0, -100.0, 4.0) == -5
  {
  }

  datatype LiquidityTone = Critical | Warning | Good
  datatype ProfitTone = Urgent | Concern | Excellent

  /** One advice line: its tone and the figure it quotes. */
  datatype Advice = LiquidityAdvice(liquidity: LiquidityTone, ratio: real)
                  | ProfitAdvice(profit: ProfitTone, margin: real)

  function LiquidityToneOf(currentRatio: real): LiquidityTone
  {
    if currentRatio < 1.0 then Critical else if currentRatio < 1.5 then Warning else Good
  }

  function ProfitToneOf(profitMargin: real): ProfitTone
  {
    if profitMargin < 0.0 then Urgent else if profitMargin < 5.0 then Concern else Excellent
  }

  /** The three band chains of the upload route, each taking at most one penalty. */
  method ScoreCredit(currentRatio: real, profitMargin: real, debtRatio: real) returns (score: int)
    ensures score == RawScore(currentRatio, profitMargin, debtRatio)
    ensures -5 <= score <= 100
  {
    score := 100;

    if currentRatio < 0.5 {
      score := score - 40;
    } else if currentRatio < 1.0 {
      score := score - 25;
    } else if currentRatio < 1.2 {
      score := score - 10;
    }

    if profitMargin < -10.0 {
      score := score - 35;
    } else if profitMargin < 0.0 {
      score := score - 25;
    } else if profitMargin < 5.0 {
      score := score - 15;
    } else if profitMargin < 10.0 {
      score := score - 5;
    }

    if debtRatio > 3.0 {
      score := score - 30;
    } else if debtRatio > 2.0 {
      score := score - 20;
    } else if debtRatio > 1.0 {
      score := score - 10;
    }
    RawScoreRange(currentRatio, profitMargin, debtRatio);
  }

  /** The two advice chains of the upload route: one liquidity line, then one profitability line. */
  method Advise(currentRatio: real, profitMargin: real) returns (recommendations: seq<Advice>)
    ensures recommendations == [LiquidityAdvice(LiquidityToneOf(currentRatio), currentRatio),
                                ProfitAdvice(ProfitToneOf(profitMargin), profitMargin)]
  {
    recommendations := [];
    if currentRatio < 1.0 {
      recommendations := recommendations + [LiquidityAdvice(Critical, currentRatio)];
    } else if currentRatio < 1.5 {
      recommendations := recommendations + [LiquidityAdvice(Warning, currentRatio)];
    } else {
      recommendations := recommendations + [LiquidityAdvice(Good, currentRatio)];
    }
    if profitMargin < 0.0 {
      recommendations := recommendations + [ProfitAdvice(Urgent, profitMargin)];
    } else if profitMargin < 5.0 {
      recommendations := recommendations + [ProfitAdvice(Concern, profitMargin)];
    } else {
      recommendations := recommendations + [ProfitAdvice(Excellent, profitMargin)];
    }
  }

  datatype UploadResult = UploadResult(
    creditScore: int,
    grade: Grade,
    currentRatio: real,
    profitMargin: real,
    debtRatio: real,
    riskLevel: Level,
    recommendations: seq<Advice>,
    debug: Totals)

  /**
   * The upload computation: the score goes through the three band chains,
   * grade and risk level are read off the raw score, the reported score is
   * floored at 0, and the advice is always one liquidity line then one
   * profitability line.
   */
  method Upload(rows: seq<CsvRow>, businessType: string) returns (r: UploadResult)
    ensures r.debug == Ledger(rows, Classify)
    ensures r.currentRatio == CurrentRatio(r.debug)
    ensures r.profitMargin == ProfitMargin(r.debug)
    ensures r.debtRatio == DebtRatio(r.debug)
    ensures var raw := RawScore(r.currentRatio, r.profitMargin, r.debtRatio);
      r.creditScore == (if raw >= 0 then raw else 0) &&
      r.grade == CreditGrade(raw) && r.riskLevel == RiskLevel(raw)
    ensures 0 <= r.creditScore <= 100
    ensures r.recommendations == [LiquidityAdvice(LiquidityToneOf(r.currentRatio), r.currentRatio),
                                  ProfitAdvice(ProfitToneOf(r.profitMargin), r.profitMargin)]
  {
    var data := ParseCsv(rows);

    var currentRatio := data.currentAssets / Floor1(data.currentLiabilities);
    var profitMargin := if data.revenue > 0.0 then data.netIncome / Floor1(data.revenue) * 100.0 else -100.0;
    var debtRatio := data.totalDebt / Floor1(data.totalEquity);
    assert currentRatio == CurrentRatio(data) && profitMargin == ProfitMargin(data) && debtRatio == DebtRatio(data);

    var score := ScoreCredit(currentRatio, profitMargin, debtRatio);

    var grade := CreditGrade(score);
    var riskLevel := RiskLevel(score);

    var recommendations := Advise(currentRatio, profitMargin);

    r := UploadResult(if score >= 0 then score else 0, grade, currentRatio, profitMargin, debtRatio,
                      riskLevel, recommendations, data);
  }

  /**
   * Grading the raw score rather than the floored one changes nothing: both
   * grade D and risk High already hold at 0, and below it.
   */
  lemma FloorDoesNotChangeGrade(raw: int)
    requires raw <= 100
    ensures CreditGrade(if raw >= 0 then raw else 0) == CreditGrade(raw)
    ensures RiskLevel(if raw >= 0 then raw else 0) == RiskLevel(raw)
  {
  }

  /** Without revenue the margin is -100, which costs the full 35 and draws the URGENT line. */
  lemma NoRevenueIsUrgent(d: Totals)
    requires d.revenue <= 0.0
    ensures ProfitPenalty(ProfitMargin(d)) == 35
    ensures ProfitToneOf(ProfitMargin(d)) == Urgent
  {
  }
}
