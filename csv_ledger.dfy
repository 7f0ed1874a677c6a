/**
 * The six-total ledger that the CSV upload apps fold their rows into. Every
 * total starts at 0; a row the bucketing rules send to a total adds its
 * amount to it, except a net-income row, whose amount replaces the net
 * income. A row the rules send nowhere changes nothing. Each app supplies
 * its own bucketing rules.
 */
module CsvLedger {
  import opened Common

  /** One already-parsed CSV record: the Account, Amount and Type columns. */
  datatype CsvRow = CsvRow(account: string, amount: real, accountType: string)

  datatype Bucket = Revenue | NetIncome | CurrentAssets | CurrentLiabilities | TotalDebt | TotalEquity

  /** The `data` dict of `parse_csv`. */
  datatype Totals = Totals(
    revenue: real,
    netIncome: real,
    currentAssets: real,
    currentLiabilities: real,
    totalDebt: real,
    totalEquity: real)

  const Zero := Totals(0.0, 0.0, 0.0, 0.0, 0.0, 0.0)

  function Field(t: Totals, b: Bucket): real
  {
    match b
    case Revenue => t.revenue
    case NetIncome => t.netIncome
    case CurrentAssets => t.currentAssets
    case CurrentLiabilities => t.currentLiabilities
    case TotalDebt => t.totalDebt
    case TotalEquity => t.totalEquity
  }

  /** `data[key] += amount`, or `data['net_income'] = amount`; no other total moves. */
  function Post(t: Totals, b: Bucket, amount: real): (r: Totals)
    ensures Field(r, b) == if b == NetIncome then amount else Field(t, b) + amount
    ensures forall b' :: b' != b ==> Field(r, b') == Field(t, b')
  {
    match b
    case Revenue => t.(revenue := t.revenue + amount)
    case NetIncome => t.(netIncome := amount)
    case CurrentAssets => t.(currentAssets := t.currentAssets + amount)
    case CurrentLiabilities => t.(currentLiabilities := t.currentLiabilities + amount)
    case TotalDebt => t.(totalDebt := t.totalDebt + amount)
    case TotalEquity => t.(totalEquity := t.totalEquity + amount)
  }

  /** One pass of the loop body under the bucketing rules `classify`. */
  function Step(t: Totals, row: CsvRow, classify: CsvRow -> Option<Bucket>): Totals
  {
    match classify(row)
    case Some(b) => Post(t, b, row.amount)
    case None => t
  }

  /** The totals after the loop has visited `rows` in order. */
  function Ledger(rows: seq<CsvRow>, classify: CsvRow -> Option<Bucket>): Totals
  {
    if |rows| == 0 then Zero
    else Step(Ledger(rows[..|rows| - 1], classify), rows[|rows| - 1], classify)
  }

  lemma LedgerSnoc(rows: seq<CsvRow>, row: CsvRow, classify: CsvRow -> Option<Bucket>)
    ensures Ledger(rows + [row], classify) == Step(Ledger(rows, classify), row, classify)
  {
    assert (rows + [row])[..|rows|] == rows;
  }

  /** The sum of the amounts of the rows the rules send to `b`. */
  function BucketSum(rows: seq<CsvRow>, classify: CsvRow -> Option<Bucket>, b: Bucket): real
  {
    if |rows| == 0 then 0.0
    else
      BucketSum(rows[..|rows| - 1], classify, b)
        + (if classify(rows[|rows| - 1]) == Some(b) then rows[|rows| - 1].amount else 0.0)
  }

  /** The amount of the last row the rules send to net income, 0 if none. */
  function LastNetIncome(rows: seq<CsvRow>, classify: CsvRow -> Option<Bucket>): real
  {
    if |rows| == 0 then 0.0
    else if classify(rows[|rows| - 1]) == Some(NetIncome) then rows[|rows| - 1].amount
    else LastNetIncome(rows[..|rows| - 1], classify)
  }

  /**
   * Every total but net income accumulates: it is the sum of the amounts of
   * exactly the rows sent to it.
   */
  lemma {:induction false} LedgerAccumulates(rows: seq<CsvRow>, classify: CsvRow -> Option<Bucket>, b: Bucket)
    requires b != NetIncome
    ensures Field(Ledger(rows, classify), b) == BucketSum(rows, classify, b)
  {
    if |rows| > 0 {
      LedgerAccumulates(rows[..|rows| - 1], classify, b);
    }
  }

  /** Net income does not accumulate: the last net-income row wins. */
  lemma {:induction false} LedgerNetIncomeIsLast(rows: seq<CsvRow>, classify: CsvRow -> Option<Bucket>)
    ensures Ledger(rows, classify).netIncome == LastNetIncome(rows, classify)
  {
    if |rows| > 0 {
      LedgerNetIncomeIsLast(rows[..|rows| - 1], classify);
      assert Ledger(rows, classify).netIncome == Field(Ledger(rows, classify), NetIncome);
    }
  }

  /** A row the rules send nowhere leaves the totals as they were. */
  lemma UnmatchedRowChangesNothing(rows: seq<CsvRow>, row: CsvRow, classify: CsvRow -> Option<Bucket>)
    requires classify(row).None?
    ensures Ledger(rows + [row], classify) == Ledger(rows, classify)
  {
    LedgerSnoc(rows, row, classify);
  }
}
