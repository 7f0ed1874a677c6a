# Financial health platform: scoring engines

This project models the decision logic of the financial-health platform. The platform has several deterministic engines. Each one turns a snapshot of named figures (a `dict` of numbers) into ratios, banded penalties, letter grades and ordered recommendation lists:

- **The advanced analyzer** (`advanced_analyzer.py`):
  - working-capital day counts;
  - rule-based risk assessment with an A–D risk grade;
  - the compound-growth fallback forecast;
  - cost-optimisation recommendations against industry benchmarks;
  - the 0–100 health score;
  - the investor report's strength and concern tags.
- **The `FinancialAnalyzer` of the Flask apps.** app.py has its own copy. app_fixed.py and app_simple.py share an identical one. It covers:
  - the ratio dict with `max(·, 1)` denominators;
  - the credit score, its grade and risk factors;
  - the benchmark recommendations, with services as the fallback industry;
  - the column-name → metric classification of uploaded tables.
- **The CSV apps** (`app_final.py`, `app_csv_reader.py`):
  - `parse_csv` folds already-parsed rows into six totals;
  - the upload route then computes the ratios, score, grade, risk level and advice.
- **The table-driven apps** (`app_optimized.py`, `app_minimal.py`): the arithmetic of the analyze route.
- **The integration helpers** (`integrations.py`):
  - monthly cash-flow aggregation and its risk flags;
  - the GST compliance score;
  - tax-saving suggestions;
  - payment-method counts and success rate;
  - the integrated insights built over successfully synced banks.

How the Python is rendered in Dafny:

- **Numbers** are Dafny `real`.
- **Dicts of figures** are `map<string, real>` (`Common.Statement`), read with `Common.Get` where the Python reads them with `.get(k, default)`.
- **Strings** are `seq<char>`.
- **Errors:** every place where the Python raises is an explicit `Result` error:
  - an unguarded division by zero gives `ZeroDivision`;
  - a missing request key gives `MissingKey`.
- **Code the Python writes step by step** (score decrements, list appends, loops over rows, columns, transactions and payments) becomes methods. Each method is proved equal to a specification function. The properties the code promises are lemmas about that function.
- **Lookup tables and conditional expressions** become functions.
- **Recommendation and risk texts** are enumerations. A text function gives each tag its message.

Modules, one per source file:
- `Common` holds shared definitions.
- `FlaskShared` holds what app.py, app_fixed.py and app_simple.py share.
- `CsvLedger` holds the six-total fold shared by the two CSV apps.

## Model

| member | source | states |
|---|---|---|
| AdvancedAnalyzer.WorkingCapitalMetrics | advanced_analyzer.py:26-46 | dso, dio and dpo are present exactly when both of their operand keys are; the cash conversion cycle is present iff all three are; an unguarded zero revenue or cost of goods sold is a division error |
| AdvancedAnalyzer.WorkingCapitalValues | advanced_analyzer.py:26-46 | each day count is operand/operand·365, and the cash conversion cycle is dso + dio − dpo |
| AdvancedAnalyzer.WorkingCapitalExample | advanced_analyzer.py:30-33 | receivables 50000 over revenue 500000 give a dso of 36.5 |
| AdvancedAnalyzer.RiskWeights | advanced_analyzer.py:88-91 | the six listed industries have three weights each, in (0, 0.4]; any other industry has none |
| AdvancedAnalyzer.KnownWeightsSumToOne | advanced_analyzer.py:16-22 | the weights of every listed industry sum to 1 |
| AdvancedAnalyzer.ContributionBounds | advanced_analyzer.py:93-95 | a draw in [0.1, 0.8] times weight times 20 lies in (0, 16·weight], hence at most 6.4, so each industry risk is Low |
| AdvancedAnalyzer.IndustryTotalBounds | advanced_analyzer.py:90-95 | the industry terms add between 0 and 16 times the weight sum |
| AdvancedAnalyzer.RiskGradeMonotone | advanced_analyzer.py:102-111 | a higher risk score never gets a better risk grade |
| AdvancedAnalyzer.RiskGradeIgnoresClamp | advanced_analyzer.py:97-100 | grading `min(score, 100)` gives the same grade as grading the raw score |
| AdvancedAnalyzer.AddIndustryRisks | advanced_analyzer.py:89-95 | the industry loop adds exactly the weighted draws to the score and reports every industry factor as Low |
| AdvancedAnalyzer.AssessFinancialRisks | advanced_analyzer.py:48-100 | the liquidity, credit and operational levels follow their three-band tables over ratios where missing keys read as 0; there is one Low industry entry per weight; the overall score is the clamped raw score, lies in [0, 100], and is graded by the risk grade |
| AdvancedAnalyzer.RiskScoreNeverClamped | advanced_analyzer.py:54-97 | the raw risk score always lies in [10, 91], so `min(score, 100)` never binds |
| AdvancedAnalyzer.UnknownIndustryAddsNothing | advanced_analyzer.py:89-95 | an unlisted industry has no weights and adds nothing to the base score |
| AdvancedAnalyzer.LiquidityBandExamples | advanced_analyzer.py:55-64 | current ratios 0.9, 1.2 and 2.0 are High, Medium and Low liquidity risk |
| AdvancedAnalyzer.Projection | advanced_analyzer.py:150-156 | the projection holds one entry per period |
| AdvancedAnalyzer.ProjectionRecurrence | advanced_analyzer.py:150-156 | the first prediction is last·1.05, and each later one is the previous one times 1.05 |
| AdvancedAnalyzer.ProjectionExample | advanced_analyzer.py:150-156 | 100000 projects to 105000, 110250, 115762.5 |
| AdvancedAnalyzer.ProjectionSnoc | advanced_analyzer.py:153-155 | one more period appends exactly last·1.05^(n+1) |
| AdvancedAnalyzer.ProjectGrowth | advanced_analyzer.py:150-156 | the prediction loop yields exactly the projection of the last value |
| AdvancedAnalyzer.GenerateSimpleForecast | advanced_analyzer.py:143-162 | a forecast exists for revenue, net income or cash flow exactly when the history is non-empty and its last entry has that metric |
| AdvancedAnalyzer.ForecastFinancialMetrics | advanced_analyzer.py:113-116 | fewer than 6 history entries dispatch to the simple trend forecast |
| AdvancedAnalyzer.SimpleForecastShape | advanced_analyzer.py:143-162 | an empty history forecasts nothing; every forecast has `periods` predictions from the compound projection and `periods` confidences of 0.7 |
| AdvancedAnalyzer.AnomalyEarlyExit | advanced_analyzer.py:171-183 | fewer than three figures return an empty anomaly report with score 0; otherwise the model is consulted |
| AdvancedAnalyzer.RevenuePerEmployeeBenchmark | advanced_analyzer.py:251-262 | an unlisted industry gets 150000; every benchmark lies in [120000, 250000] |
| AdvancedAnalyzer.GenerateCostOptimizationRecommendations | advanced_analyzer.py:210-249 | the appends equal the rule list, and a zero employee count is floored to 1, while an unguarded zero revenue or zero inventory is a division error |
| AdvancedAnalyzer.Categories | advanced_analyzer.py:210-249 | one category per recommendation |
| AdvancedAnalyzer.CostRecommendationRules | advanced_analyzer.py:212-247 | recommendations come in the order Productivity, Cost Control, Inventory Management, each present exactly when its keys are present and its threshold is met; savings are 10% of revenue, 15% of operating expenses and 20% of inventory |
| AdvancedAnalyzer.Clamp100 | advanced_analyzer.py:297 | the result lies in [0, 100] and leaves in-range scores alone |
| AdvancedAnalyzer.CalculateFinancialHealthScore | advanced_analyzer.py:264-299 | the decrements yield the health score, which lies in [0, 100] |
| AdvancedAnalyzer.HealthScoreOfMissingRatios | advanced_analyzer.py:270-292 | missing ratios read as 0: a missing current ratio costs 25, a missing margin costs 15, a missing debt-to-equity costs nothing |
| AdvancedAnalyzer.HealthScoreClampsAtZero | advanced_analyzer.py:270-297 | the worst bands with a full risk deduction clamp at 0 |
| AdvancedAnalyzer.HealthScoreAntitoneInRisk | advanced_analyzer.py:294-295 | a higher overall risk score never raises the health score |
| AdvancedAnalyzer.HealthScoreWithoutRisk | advanced_analyzer.py:264-299 | without risks the score is 100 less the three band penalties, never below 25 |
| AdvancedAnalyzer.GenerateInvestorReport | advanced_analyzer.py:301-330 | the score is the health score with no risks; 'Strong profit margins' iff margin > 0.1, 'Excellent liquidity position' iff current ratio > 1.5, 'High debt burden' iff debt-to-equity > 1.5, 'Low profitability' iff margin < 0.05; each list is exact and in the order the rules are checked |
| Common.CreditGradeMonotone | app_optimized.py:38-40 | a higher score never gets a worse grade (80/60/40) or a worse risk level (70/50) |
| Common.LexGreaterIrreflexive | integrations.py:211 | Python string `>` is irreflexive |
| FlaskShared.CalculateFinancialRatios | app.py:42-62 | each of the four ratios is present iff both of its operand keys are, and equals numerator / max(denominator, 1); no other key appears |
| FlaskShared.RatiosNeverExceedNumerator | app.py:42-62 | with non-negative figures every ratio is non-negative and at most its numerator |
| FlaskShared.QuotientBound | app.py:45 | n / max(d, 1) lies in [0, n] for n ≥ 0 |
| FlaskShared.BenchmarksFor | app.py:33-40 | a listed industry gets its row and any other gets the services row; all benchmark values are positive |
| FlaskShared.ClassifyColumn | app.py:243-254 | a column maps to at most one metric key; the revenue/sales test wins over all later tests |
| FlaskShared.ExtractColumnMetrics | app.py:240-261 | the column loop yields the metrics fold, whose keys are metric keys |
| FlaskShared.ColumnMetricsLastWins | app.py:240-261 | a metric is present iff some column maps to it, and then holds the sum of the last such column |
| FlaskShared.LaterRevenueColumnOverwrites | app.py:244-261 | with 'Revenue' then 'Sales' columns, revenue is the Sales sum |
| FlaskShared.TotalPenaltyAppend | app.py:64-101 | penalties of concatenated factor lists add |
| AppAnalyzer.AssessCreditworthiness | app.py:64-101 | the decrements yield the credit score, which lies in [20, 100] so `max(score, 0)` never binds; the grade is 80/60/40; the factors follow rule order |
| AppAnalyzer.ScoreMatchesFactors | app.py:64-98 | the score is 100 less the penalties of exactly the reported factors |
| AppAnalyzer.RiskFactorsExact | app.py:70-98 | each factor is present exactly when its rule's band fires (current ratio < 1.0 or else < 1.2, debt-to-equity > 1.0, margin < 0 or else < 0.05, operating cash flow < 0) |
| AppAnalyzer.Recommendations | app.py:103-131 | Liquidity, Profitability, Leverage in that order, each present iff its ratio is below (above, for leverage) the industry benchmark with the services fallback |
| AppAnalyzer.GenerateRecommendations | app.py:103-131 | the appends yield the recommendation list |
| AppAnalyzer.EmptyRatiosRecommendations | app.py:110-128 | an empty ratio set yields exactly Liquidity then Profitability |
| AppAnalyzer.ExtractFinancialMetrics | app.py:234-267 | a table yields the column fold; anything else yields the sample snapshot |
| AppAnalyzer.SampleSnapshotAssessment | app.py:262-267 | the sample snapshot's ratios draw no risk factor and grade A |
| FixedAnalyzer.AssessCreditworthiness | app_fixed.py:47-67 | the three rules cost 20, 15 and 25, so the score lies in [40, 100] and the grade is never D; the factors follow rule order (app_simple.py:47-67 is identical) |
| FixedAnalyzer.ScoreMatchesFactors | app_fixed.py:51-61 | the score is 100 less the penalties of exactly the reported factors, each present iff its rule fires |
| FixedAnalyzer.Recommendations | app_fixed.py:69-87 | only Liquidity then Profitability, each iff below the benchmark with the services fallback; never Leverage (app_simple.py:69-87 is identical) |
| FixedAnalyzer.GenerateRecommendations | app_simple.py:69-87 | the appends yield the recommendation list |
| FixedAnalyzer.UnknownIndustryIsServices | app_fixed.py:71 | an unlisted industry is advised exactly as services |
| FixedAnalyzer.ExtractFinancialMetrics | app_simple.py:121-148 | a table yields the column fold; anything else yields the sample snapshot with total assets (app_fixed.py:228-255 is identical) |
| FixedAnalyzer.SampleSnapshotRatios | app_fixed.py:247-255 | the sample carries every operand, so all four ratios come out of it, and its credit score is 100 |
| CsvLedger.Post | app_final.py:19-36 | posting to a bucket moves only that total: it adds the amount, or for net income replaces it |
| CsvLedger.LedgerSnoc | app_final.py:14-40 | one more row is one more step of the fold |
| CsvLedger.LedgerAccumulates | app_final.py:19-40 | every total except net income is the sum of exactly the rows sent to it |
| CsvLedger.LedgerNetIncomeIsLast | app_final.py:23-24 | net income is the amount of the last net-income row |
| CsvLedger.UnmatchedRowChangesNothing | app_final.py:14-40 | a row no rule matches leaves the totals unchanged |
| FinalApp.Classify | app_final.py:19-38 | revenue/sales wins over all other tests; a net-income bucket means the name mentions net income |
| FinalApp.LiabilitySplit | app_final.py:31-36 | a liability row goes to current liabilities if its name mentions payable, short-term or credit, and otherwise to total debt |
| FinalApp.ParseCsv | app_final.py:8-42 | the row loop yields the ledger fold under the app's rules |
| FinalApp.RevenueAccumulatesNetIncomeOverwrites | app_final.py:19-24 | revenue sums every revenue row, and the last net-income row sets net income |
| FinalApp.NetIncomeRowOverwrites | app_final.py:23-24 | a net-income row, a loss included, sets net income to its own amount |
| FinalApp.ProfitMargin | app_final.py:99 | a percentage of revenue, exactly −100 when revenue ≤ 0 |
| FinalApp.RawScoreRange | app_final.py:103-119 | the raw score lies in [−5, 100], and −5 is reached |
| FinalApp.ScoreCredit | app_final.py:103-119 | the three band chains take at most one penalty each, so the raw score lies in [−5, 100] |
| FinalApp.Advise | app_final.py:125-138 | exactly one liquidity line and then one profitability line, toned by their thresholds |
| FinalApp.Upload | app_final.py:88-145 | the ratios come from the parsed totals; the grade (80/60/40) and risk level (70/50) come from the raw score; the reported score is max(raw, 0) in [0, 100]; the advice is one liquidity line (by < 1.0 / < 1.5) and then one profitability line (by < 0 / < 5) |
| FinalApp.FloorDoesNotChangeGrade | app_final.py:121-122 | grading the floored score gives the same grade and risk level as grading the raw score |
| FinalApp.NoRevenueIsUrgent | app_final.py:99-116 | without revenue the margin costs the full 35 and draws the URGENT line |
| CsvReaderApp.Classify | app_csv_reader.py:26-37 | revenue/sales wins over all other tests; a row is net income iff it is not revenue, mentions net income and is positive |
| CsvReaderApp.ParseCsv | app_csv_reader.py:17-39 | the row loop yields the ledger fold under the app's rules |
| CsvReaderApp.NetIncomeNonNegative | app_csv_reader.py:20-29 | net income after parsing is never negative |
| CsvReaderApp.ParsedMarginNonNegative | app_csv_reader.py:93 | hence the parsed profit margin is never negative |
| CsvReaderApp.RawScoreRange | app_csv_reader.py:97-101 | the score lies in [10, 100], so `max(score, 0)` never binds, and is at least 25 when the margin is non-negative |
| CsvReaderApp.Recommendations | app_csv_reader.py:107-115 | four independent lines in fixed order, each present iff its threshold is crossed |
| CsvReaderApp.ScoreCredit | app_csv_reader.py:97-101 | the four independent penalties leave the score in [10, 100], and at least 25 when the margin is non-negative |
| CsvReaderApp.Advise | app_csv_reader.py:107-115 | the four rules append in rule order, each line present iff its threshold is crossed |
| CsvReaderApp.Upload | app_csv_reader.py:82-125 | the ratios come from the parsed totals; the score lies in [25, 100]; the grade is 80/60/40 and the risk level 70/50; the Emergency line never occurs |
| OptimizedApp.BenchmarkFor | app_optimized.py:8-15 | a listed type gets its tuple and any other gets the services tuple; the values are bounded |
| OptimizedApp.CalculateScore | app_optimized.py:18-36 | the score subtracts 30/25/20 independently, so it is one of 100, 80, 75, 70, 55, 50, 45, 25 |
| OptimizedApp.ScoreMonotone | app_optimized.py:24-36 | better ratios never lower the score |
| OptimizedApp.Recommendations | app_optimized.py:42-55 | the current-ratio, profit-margin and debt lines come in that order, each present iff past its benchmark |
| OptimizedApp.GenerateRecommendations | app_optimized.py:42-55 | the appends yield the recommendation list |
| OptimizedApp.TupleLayoutAgrees | app_optimized.py:114 | the (current, debt, margin) tuple compares each ratio against its own benchmark column |
| OptimizedApp.Analyze | app_optimized.py:96-128 | a missing request field is an error; otherwise the ratios use max(·, 1) denominators with the margin in percent, and the score, grade, 70/50 risk level and recommendations follow from them |
| MinimalApp.Analyze | app_minimal.py:86-121 | a missing field is an error; the score is one of 100, 80, 70, 50, so the grade is never D and the risk never High; the restructuring line fires iff current ratio < 1.0 and margin < 5 |
| MinimalApp.DebtAdviceComesLast | app_minimal.py:107-112 | whenever the restructuring line fires, the liquidity and cost lines fire too |
| Integrations.AddTo | integrations.py:108-112 | adding to a month creates it if needed and leaves every other month alone |
| Integrations.NetCashFlow | integrations.py:115-122 | net flow is defined on exactly the union of months, as inflow − outflow with a missing side read as 0 |
| Integrations.FlowsPerMonth | integrations.py:99-113 | each month's inflow (outflow) is the sum of the positive (other, in absolute value) amounts dated in it; a month appears iff such a transaction exists; all totals are ≥ 0 |
| Integrations.LargeCount | integrations.py:125 | large transactions are at most all transactions |
| Integrations.FlowsSnoc | integrations.py:105-112 | one more transaction adds to exactly one of the two monthly dicts, by its sign |
| Integrations.AggregateMonths | integrations.py:102-112 | the transaction loop yields the inflow and outflow folds |
| Integrations.AnalyzeBankingData | integrations.py:90-133 | the transaction loop yields the monthly folds and their flags; without a transactions key the insights stay empty |
| Integrations.NegativeFlagIffOutflowExceedsInflow | integrations.py:125-127 | negative cash flow is flagged iff some month's outflow exceeds its inflow |
| Integrations.GstCompliance | integrations.py:197-233 | the analysis fails exactly when gstr3b is present and its turnover is zero; the score is 100, or 80 exactly when gstr3b is present and the filing is late |
| Integrations.AnalyzeGstCompliance | integrations.py:197-233 | the result is the compliance analysis above: score 100, or 80 exactly when gstr3b is present and the filing is late; input credit above 80% of liability draws advice; the input credit ratio is 0 when liability ≤ 0; a zero turnover is a division error |
| Integrations.FilingOnDueDateIsOnTime | integrations.py:210-213 | filing on the due date is never late |
| Integrations.AdviceAgreesWithRatio | integrations.py:219-230 | with positive liability, the advice is given iff the reported input credit ratio exceeds 80 |
| Integrations.GenerateTaxOptimizationSuggestions | integrations.py:235-262 | ITC first iff utilisation < 70%, saving 10% of liability; composition next iff revenue < 1,500,000 and 1% of it is below the current tax, saving a positive difference; a zero liability beside an input credit is a division error |
| Integrations.ItcRuleAsShare | integrations.py:241-243 | with positive liability, the ITC rule fires iff the credit is below 70% of the liability |
| Integrations.TotalRemove | integrations.py:305-307 | a count dict's total does not depend on which key is summed first |
| Integrations.TotalIncrement | integrations.py:307 | counting one more payment raises the total by one |
| Integrations.CountsSumToPayments | integrations.py:305-307 | the payment-method counts sum to the number of payments |
| Integrations.CapturedCount | integrations.py:310 | captured payments are at most all payments |
| Integrations.ShareBound | integrations.py:314 | a count out of a positive total, as a percentage, lies in [0, 100] |
| Integrations.AnalyzePaymentPatterns | integrations.py:292-319 | the counts come from the method loop; the success rate is captured/total·100 in [0, 100], and 0 when there are no payments; successful ≤ attempted |
| Integrations.GenerateIntegratedInsights | integrations.py:376-400 | exactly the banks with status 'success' appear, each with its own cash-flow analysis; without GST data there is no compliance status; with it, the result fails exactly when the compliance analysis fails, and otherwise carries that analysis as its compliance status |

## Left out

- Flask routes, request/JSON transport and the inline HTML/JS pages. Only the route arithmetic is modelled. A missing request field is modelled as the `MissingKey` error the route turns into a 500 response.
- Database access (psycopg2 and sqlite), Fernet encryption, the OpenAI call and the Plotly charts: I/O and foreign libraries.
- Document parsing (pandas, PyPDF2, csv.DictReader):
  - CSV rows and table columns are taken as already-parsed records;
  - the float conversion of `Amount` is not modelled.
- RandomForest forecasting and its confidence, and IsolationForest scoring: opaque numeric libraries. Only the fewer-than-6 dispatch and the fewer-than-3 early exit are modelled.
- The shared, per-call-fitted model instances of the advanced analyzer: a concurrency matter, not logic.
- `np.random.uniform`: an input sequence `draws`, one value in [0.1, 0.8] per weight.
- Bank, GST and payment connectors and `sync_all_data`: network I/O, HMAC and clock reads.
- run.py: environment checks and server start.
- `round()` for display and IEEE float behaviour: values are `real`.
- Texts:
  - recommendation, risk and advice texts are enumerations with text functions;
  - formatted messages that embed numbers are represented by their tag and the figure.
- `Common.Lower`: lower-cases ASCII letters only; Python's `str.lower` covers all of Unicode.
- Always-empty result entries are not represented. These are the spending and seasonal patterns, customer behaviour, revenue verification and operational efficiency, and the investor report's investment highlights, risk factors and growth opportunities.
- Unused parameters are kept in signatures but play no part: `financial_data` of `generate_integrated_insights`, `business_type` of the extractors, and the unused `BENCHMARKS` table of app_csv_reader.py.
- Crashes on malformed data are not modelled: a `transactions` key holding `None`, a `date` key holding `None`, a `payments` key holding `None` (the connector's value for a failed request), and non-numeric amounts.
- AdvancedAnalyzer.ForecastFinancialMetrics: the default `periods=12` is not modelled; callers pass the number of periods explicitly.
- Integrations.GenerateIntegratedInsights: an empty GST dict is represented as absent GST data.
- Integrations.AnalyzePaymentPatterns: a payment whose `method` key holds `None` is not distinguished from one without the key.
