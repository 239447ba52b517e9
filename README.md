# Personal investment dashboard — verified model of its core

This project is a Dafny model of the computing core of a Streamlit
dashboard for personal investing. The model covers:

- **Holdings and portfolios** (`models.py`): market value and cost, the
  dict form of a portfolio, and a portfolio's own volatility-based risk
  score.
- **Portfolio analysis** (`analysis.py`): total return, allocation by
  category, a weighted risk score, and the rule-based risk assessment. The
  assessment has concentration, dominance and volatility rules, a level,
  and suggestions matched from the factor texts. There is also the
  strategy recommendation.
- **Goal tracking** (`goal_tracker.py`): an object holding a list of
  goals that is appended to and updated in place. It supports lookups, the
  monthly saving needed, a progress report, the share of targets per risk
  label, and adjustment suggestions.
- **Market data helpers** (`market_data.py`): the exchange prefix of a
  quote code and the field layout of a quote line. Also the index names and
  the market-sentiment rule of the overview.
- **Rules embedded in the pages** (`app.py`): the risk questionnaire, the
  choice of the latest report period, the exchange-suffix normalisation,
  and the per-asset profit and portfolio totals of the portfolio form.

Layout:

- `basics.dfy`: `Option` and `Result`.
- `ordered_dicts.dfy`: Python dicts as insertion-ordered entry lists.
  Where the source iterates a dict, its order shows in the output.
- `text.dfy`: the string operations the source uses, which are
  `startswith`, `endswith`, the `in` substring test, `split` and
  `str(int)`. `Find` and `Join` are the model's own helpers: `Find`
  locates the separator for `Split`, and `Join` builds quote lines in the
  lemmas about quote parsing.
- `arithmetic.dfy`: a fact about real division shared by the share
  computations.
- `models.dfy`, `analysis.dfy`, `goal_tracker.dfy`, `market_data.dfy` and
  `app_rules.dfy` hold one source file each.

How the model represents the source:

- Python floats are `real`.
- Timestamps are whole seconds. One `now` parameter stands for every
  `datetime.now()` call of an operation.
- Code that raises yields `None` or `Err`. This covers a `KeyError` on an
  unknown goal label, a zero target in `update_goal_progress`, a zero cost
  price in `InvestmentPortfolio.calculate_risk_score`, and a malformed
  quote line.
- The HTTP request is a function parameter from URL to response. So are
  `float()` and `int()` on a quote field, which give `None` where Python
  raises `ValueError`.

Two behaviours of the code are easy to miss:

- The risk-weight table is keyed by the Chinese category names, so a
  category spelled "stock" gets the default weight 0.5
  (`Analysis.CategorySpelling`).
- On a goal with a zero target, `update_goal_progress` stores the new
  amount and then raises `ZeroDivisionError`. The model returns
  `DivisionByZero` with the amount already stored.

## Model

| member | source | states |
|---|---|---|
| Models.MarketValueNonNegative | models.py:55-57 | a holding with non-negative quantity and price has a non-negative market value |
| Models.TotalValueAppend | models.py:55-57 | the total value of two lists of holdings together is the sum of their totals |
| Models.TotalValueNonNegative | models.py:55-57 | non-negative holdings have a non-negative total value |
| Models.TotalCost | analysis.py:14 | the total purchase cost of holdings with non-negative quantities and prices is non-negative |
| Models.ToDict | models.py:30-41 | the dict form has exactly the eight portfolio keys, with no entry for the holdings |
| Models.NewPortfolio | models.py:18-28 | a new portfolio keeps its holdings, is active and is stamped with the creation time |
| Models.FromDict | models.py:43-53 | each missing key takes its default: name "", tolerance "稳健", capital 0, goal "长期财富增值", value 0, score 0; each present key of its kind is read as stored; the result has no holdings and is active |
| Models.DictRoundTrip | models.py:30-53 | reading back the dict form restores name, tolerance, capital, goal, value and score, with empty holdings, a new creation time and the active flag set |
| Models.ToleranceCoefficient | models.py:64-69 | "保守" weighs 0.5, "激进" 1.5, and every other label 1.0 |
| Models.PortfolioRiskScore | models.py:59-82 | the portfolio score fails exactly when there are holdings, their value is non-zero and one has a zero cost price; it is 0 for no holdings or zero value |
| Models.WeightedVolatilityNonNegative | models.py:76-80 | with positive cost prices and non-negative holdings the weighted volatility is non-negative |
| Models.PortfolioRiskScoreOrdered | models.py:59-82 | with positive cost prices the score succeeds, is non-negative, and grows from "保守" to "稳健" to "激进" |
| Models.NewGoal | models.py:84-92 | a new goal has nothing saved and no progress, and keeps its name, target, deadline and label |
| Analysis.TotalReturn | analysis.py:15 | the return times the cost is the gain over the cost; it is 0 without a positive cost |
| Analysis.CategoryTotalsDistinct | analysis.py:83-87 | the per-category dict has each category once |
| Analysis.CategoryTotalsHas | analysis.py:83-87 | a category is a key of the per-category dict exactly when some holding has it |
| Analysis.CategoryTotalsKeys | analysis.py:83-87 | the keys of the per-category dict are exactly the categories present |
| Analysis.CategoryTotalsGet | analysis.py:83-87 | each category maps to the summed value of its holdings |
| Analysis.CategoryTotalsSum | analysis.py:83-87 | the per-category values add up to the total value |
| Analysis.CategoryTotalsStep | analysis.py:84-87 | one loop step of the category dict extends the dict of the prefix by one holding |
| Analysis.SumByCategory | analysis.py:83-87 | the category loop builds the per-category dict of all holdings |
| Analysis.AllocationKeys | analysis.py:34-38 | the allocation has the categories as keys, in order of first appearance |
| Analysis.AllocationGet | analysis.py:34-38 | each category's fraction is its value over the total |
| Analysis.AllocationSum | analysis.py:34-38 | the fractions add up to the total value over the divisor |
| Analysis.AllocationSumsToOne | analysis.py:28-40 | for a non-zero total the fractions add up to 1 |
| Analysis.CalculateAssetAllocation | analysis.py:28-40 | empty for a zero total; otherwise distinct keys, exactly the categories present, each category's value share, and a sum of 1 |
| Analysis.RiskWeight | analysis.py:48-63 | every category weight lies between 0.1 and 0.8 |
| Analysis.RiskWeightTable | analysis.py:48-63 | stocks 0.8, funds 0.6, bonds 0.3, cash 0.1, and 0.5 for any other category |
| Analysis.WeightedRiskBetween | analysis.py:60-64 | the weighted risk of a prefix lies between 0.1 and 0.8 times the prefix's share of the total |
| Analysis.WeightedRiskScoreBounds | analysis.py:42-66 | for non-negative holdings with a positive total, the score lies in [0.1, 0.8] |
| Analysis.SingleCategoryRisk | analysis.py:60-64 | holdings of one category weigh that category's weight times their share |
| Analysis.SingleCategoryScore | analysis.py:42-66 | a portfolio of one category scores that category's weight |
| Analysis.CategorySpelling | analysis.py:48-64 | one holding of 100 units at 20 in "stock" is worth 2000 and scores 0.5; the same holding in "股票" scores 0.8 |
| Analysis.CalculateRiskScore | analysis.py:42-66 | the loop computes the weighted score; it is 0 without holdings or value, and in [0.1, 0.8] for non-negative holdings |
| Analysis.CalculatePortfolioMetrics | analysis.py:11-26 | the metrics give value, cost, the return relation, the weighted score, and for a non-zero value the allocation: exactly the categories present, each with its value share, summing to 1 |
| Analysis.LevelOf | analysis.py:115-121 | low below 0.3, medium from 0.3 below 0.6, high from 0.6 |
| Analysis.SuggestionsMatch | analysis.py:124-132 | each of the four suggestions appears exactly when its factor text matched, so there are at most four |
| Analysis.SuggestionsOrdered | analysis.py:124-132 | the suggestions appear in the fixed order diversify, rebalance, take profit, stop loss |
| Analysis.ApplyDominanceRule | analysis.py:99-102 | the dominance loop appends one factor per category above half the total, and adds 0.2 for each |
| Analysis.ApplyVolatilityRule | analysis.py:105-113 | the volatility loop appends the gain and loss factors in holding order, and adds their increments |
| Analysis.MatchSuggestions | analysis.py:124-132 | the suggestion steps build the suggestions matched from the factors |
| Analysis.Assess | analysis.py:68-140 | the level agrees with the score; the date is the clock reading; a zero-value portfolio gets score 0, level low, the empty-portfolio factor and its one suggestion |
| Analysis.AssessRisk | analysis.py:68-140 | the step-by-step assessment equals the rule-based assessment |
| Analysis.CategoryCount | analysis.py:83-94 | the number of distinct categories is the size of the category dict |
| Analysis.ConcentrationText | analysis.py:96 | the concentration factor carries none of the three markers |
| Analysis.TaggedText | analysis.py:99-113 | a name without markers, once tagged, carries exactly its own marker |
| Analysis.DominanceTagged | analysis.py:102 | a category tagged as over-weighted carries only the dominance marker |
| Analysis.GainTagged | analysis.py:110 | a holding tagged as a sharp gain carries only the gain marker |
| Analysis.LossTagged | analysis.py:113 | a holding tagged as a sharp drop carries only the loss marker |
| Analysis.DominanceFactorsKinds | analysis.py:99-102 | every dominance factor is a dominance text |
| Analysis.DominanceFactorsFire | analysis.py:99-102 | some dominance factor is recorded exactly when some category exceeds half the total |
| Analysis.VolatilityGainMatch | analysis.py:105-110 | a gain marker is found exactly when some holding's price exceeds 1.5 times its non-zero cost |
| Analysis.VolatilityLossMatch | analysis.py:105-113 | a loss marker is found exactly when some holding's price is below 0.8 times its non-zero cost |
| Analysis.VolatilityFactorsKinds | analysis.py:105-113 | every volatility factor is a gain text or a loss text |
| Analysis.VolatilityOthers | analysis.py:105-113 | volatility factors never carry the dominance marker or equal the concentration factor |
| Analysis.RebalanceFires | analysis.py:83-102 | the dominance rule fires exactly when some holding's category exceeds half the total |
| Analysis.DominanceMatch | analysis.py:99-128 | the dominance marker is found exactly when the rule fired, and no dominance factor matches another kind |
| Analysis.FactorsMatch | analysis.py:93-132 | text matching over the concatenated factor list sees each kind only in its own rule's part |
| Analysis.AssessMatchesRules | analysis.py:83-132 | for marker-free names and categories, each suggestion is given exactly when its numeric rule holds |
| Analysis.VolatilityCounts | analysis.py:105-113 | the volatility rule adds 0.1 per gain and 0.2 per loss, one factor each, at most one per holding |
| Analysis.DominanceMass | analysis.py:99-102 | one dominance factor needs over half the mass and two need more than all of it |
| Analysis.CategoryValueNonNegative | analysis.py:83-87 | a category's value is non-negative for non-negative holdings |
| Analysis.DominanceAtMostOne | analysis.py:99-102 | for non-negative holdings at most one category can dominate |
| Analysis.AssessScore | analysis.py:89-121 | the score is 0.3 for concentration, plus 0.2 for a dominant category, plus 0.1 per gain and 0.2 per loss; a concentrated portfolio is never low risk |
| Analysis.Suitability | analysis.py:187 | suitability never exceeds 1, and is 1 exactly at score 0.5 |
| Analysis.SuitabilitySymmetric | analysis.py:187 | suitability is symmetric around 0.5 |
| Analysis.StrategyFor | analysis.py:153-194 | four points; conservative below 0.3 with 5 % and "低风险", balanced from 0.3 below 0.7 with 8 % and "中风险", aggressive from 0.7 with 12 % and "高风险"; the suitability rule and the clock reading |
| Analysis.ExpectedReturnMonotone | analysis.py:155-184 | a higher score never lowers the expected return, which is 5%, 8% or 12% |
| Analysis.BoundaryMismatch | analysis.py:115-166 | a score in [0.6, 0.7) is assessed high yet gets the balanced strategy |
| Analysis.RecommendStrategy | analysis.py:151-194 | the recommendation is the strategy for the weighted score; for non-negative holdings with value, suitability lies in [0.6, 1] |
| GoalTracking.FirstMatch | goal_tracker.py:16-20 | the first goal with the name, or none when no goal has it |
| GoalTracking.RemainingDaysFloor | goal_tracker.py:42 | the remaining days are the floor of the time to the deadline in days, negative exactly past the deadline |
| GoalTracking.UpdatedGoals | goal_tracker.py:14-20 | an update keeps the number of goals and every goal's name and target |
| GoalTracking.UpdateChangesFirstMatchOnly | goal_tracker.py:14-20 | only the first goal with the name changes; its amount is set, its progress is min(amount / target, 1), and a zero target leaves progress unchanged |
| GoalTracking.UpdateIdempotent | goal_tracker.py:14-20 | updating twice with the same amount is updating once |
| GoalTracking.ProgressOf | goal_tracker.py:26-33 | current plus remaining amount is the target |
| GoalTracking.LookupProgress | goal_tracker.py:22-34 | the lookup is empty exactly when no goal has the name, and otherwise reports the first goal of that name |
| GoalTracking.UpdateThenLookup | goal_tracker.py:14-34 | after an update the lookup finds the goal with the new amount, the remaining target and progress at most 1 |
| GoalTracking.SavingFor | goal_tracker.py:36-49 | 0 when the deadline has passed; otherwise the saving times the days is 30 times the amount left; positive exactly with days left and target not reached |
| GoalTracking.MonthlySaving | goal_tracker.py:36-40 | 0 when no goal has the name, otherwise the saving of the first goal with the name |
| GoalTracking.AllGoalsProgress | goal_tracker.py:51-64 | one entry per goal |
| GoalTracking.AllGoalsProgressSavings | goal_tracker.py:51-64 | each entry holds its goal's progress; goals of the same name share the saving of the first goal of that name |
| GoalTracking.InitialKeys | goal_tracker.py:83-84 | the initial distribution has the three labels in order, all at 0 |
| GoalTracking.LabelStep | goal_tracker.py:90-91 | a dict with the three labels has exactly those keys and keeps them under an update |
| GoalTracking.AccumulateStep | goal_tracker.py:90-91 | one loop step adds the goal's share to its label, or fails on an unknown label |
| GoalTracking.AccumulateKeys | goal_tracker.py:90-91 | the loop succeeds exactly when every goal has one of the three labels, and keeps the three keys |
| GoalTracking.AccumulateGet | goal_tracker.py:90-91 | each label accumulates its goals' targets over the total |
| GoalTracking.LabelTargetsSum | goal_tracker.py:86-91 | when every goal is labelled, the per-label targets add up to the total target |
| GoalTracking.AccumulateStaysFailed | goal_tracker.py:90-91 | once an unknown label is met the whole distribution fails |
| GoalTracking.Distribution | goal_tracker.py:81-93 | a computed distribution is keyed by the three labels in order; a zero total gives all three at 0 |
| GoalTracking.DistributionKeys | goal_tracker.py:81-93 | the three labels in order; all zero for a zero total; fails exactly for a non-zero total with an unknown label |
| GoalTracking.DistributionShares | goal_tracker.py:86-93 | each label holds its goals' share of the total target |
| GoalTracking.DistributionSumsToOne | goal_tracker.py:81-93 | the shares add up to 1 for a non-zero total |
| GoalTracking.CurrentWithinTarget | goal_tracker.py:68-69 | when each goal's amount lies within its target, the totals keep that order |
| GoalTracking.Report | goal_tracker.py:66-79 | the report exists exactly when the distribution does, counts the goals, has one entry per goal and carries the distribution |
| GoalTracking.ReportSpec | goal_tracker.py:66-79 | the report exists exactly when the distribution does; it counts the goals; its total progress times the target is the current total; progress is in [0, 1] when amounts lie within targets |
| GoalTracking.GoalSuggestionCases | goal_tracker.py:100-107 | at most one message per goal: expired exactly past the deadline, otherwise the burden message exactly when the saving exceeds half the current amount |
| GoalTracking.DueTodayNoSuggestion | goal_tracker.py:100-107 | a goal due today with a non-negative amount gets no message |
| GoalTracking.GoalSuggestionsCount | goal_tracker.py:100-107 | no more goal messages than goals |
| GoalTracking.DistributionSuggestionCases | goal_tracker.py:110-114 | at most one message: aggressive above 0.5, else conservative above 0.7 |
| GoalTracking.Adjustments | goal_tracker.py:95-116 | the suggestions fail exactly when the distribution does; they start with the goal messages and add at most one more |
| GoalTracking.AdjustmentsBound | goal_tracker.py:95-116 | the suggestions fail exactly when the distribution does, and number at most one more than the goals |
| GoalTracking.GoalTracker.constructor | goal_tracker.py:7-8 | a new tracker has no goals |
| GoalTracking.GoalTracker.AddGoal | goal_tracker.py:10-12 | the goal is appended |
| GoalTracking.GoalTracker.UpdateGoalProgress | goal_tracker.py:14-20 | the search loop updates the first goal with the name in place and reports the outcome |
| GoalTracking.GoalTracker.GetGoalProgress | goal_tracker.py:22-34 | the lookup loop returns the first match's progress, and nothing exactly when no goal has the name |
| GoalTracking.GoalTracker.RiskDistribution | goal_tracker.py:81-93 | the accumulation loop computes the distribution, failing on an unknown label |
| GoalTracking.GoalTracker.GenerateProgressReport | goal_tracker.py:66-79 | the report of the current goals |
| GoalTracking.GoalTracker.SuggestGoalAdjustments | goal_tracker.py:95-116 | the goal messages in goal order, then the distribution message |
| MarketData.StockCode | market_data.py:17-24 | a code exactly for symbols starting with 6, 0 or 3; otherwise an error naming the symbol |
| MarketData.StockCodeRoundTrip | market_data.py:17-22 | every code made is "sh" with a 6-symbol or "sz" with a 0- or 3-symbol and gives back its symbol; every such code is made from its symbol |
| MarketData.QuoteFields | market_data.py:34 | the fields exist exactly when the text contains `="` |
| MarketData.ChangePercentSpec | market_data.py:45-46 | defined exactly for a non-zero close; percent times close is 100 times the change; the price is recoverable; positive exactly when the price rose above a positive close |
| MarketData.StockQuoteOf | market_data.py:34-47 | no payload exactly without `="`; a quote needs ten fields and keeps the symbol and field 0; its change is current minus a non-zero close and the percentage agrees |
| MarketData.QuoteLineFields | market_data.py:34 | a quote line built from comma-free fields reads back as those fields |
| MarketData.QuoteLayout | market_data.py:34-47 | fields 0-5, 8 and 9 land in name, open, close, current, high, low, volume and amount; change and percentage come from fields 3 and 2 |
| MarketData.ShortQuoteLine | market_data.py:34-47 | a line of fewer than ten convertible fields fails at the first missing index read |
| MarketData.StockPrice | market_data.py:26-51 | an unsupported symbol fails before fetching; the quote URL is the base URL plus the code; a non-200 status is reported with its value; otherwise the parsed quote or its error |
| MarketData.IndexName | market_data.py:55-69 | a known index code maps to its name, and an unknown code is its own name |
| MarketData.IndexQuoteOf | market_data.py:67-75 | no payload exactly without `="`; the name is the index name; the close is non-zero and the percentage agrees with the change |
| MarketData.MarketIndex | market_data.py:53-79 | a status error exactly for a non-200 status; otherwise exactly the parsed index quote |
| MarketData.Sentiment | market_data.py:158-169 | one of three words; optimistic exactly when all three indices were read and their changes sum above 3, pessimistic exactly below -3 |
| MarketData.SentimentMirror | market_data.py:158-169 | negating every change swaps optimism and pessimism |
| MarketData.Overview | market_data.py:142-176 | each index shows "N/A" exactly when its reading failed; the sentiment is the sentiment rule over the three readings, and a non-neutral one means all three were shown |
| AppRules.AnswerScore | app.py:1055-1057 | an answer scores exactly when it is an option, and the i-th option scores 3(i+1) |
| AppRules.AnswerScoreValues | app.py:1055-1057 | each answer scores 3, 6 or 9 |
| AppRules.Questionnaire | app.py:1052-1070 | the evaluation succeeds exactly when all three answers are options |
| AppRules.QuestionnaireBounds | app.py:1044-1059 | with the slider in 1..10 the total lies in [2.5, 9.25] |
| AppRules.ProfileOf | app.py:1062-1070 | conservative exactly up to 4, steady above 4 up to 7, enterprising above 7, keeping the total |
| AppRules.ProfileMonotone | app.py:1062-1070 | a higher total never gives a more cautious level |
| AppRules.CautiousAnswers | app.py:1055-1064 | the most cautious answers are conservative exactly up to slider 7 |
| AppRules.BoldAnswers | app.py:1055-1070 | the boldest answers are enterprising exactly from slider 2, since 7 is inclusive |
| AppRules.PeriodParts | app.py:1368 | a year followed by a quarter end reads back as that year, month and day |
| AppRules.ReportPeriod | app.py:1343-1366 | the period is the annual report "1231" exactly until April, and starts with last year's number then and this year's otherwise |
| AppRules.ReportPeriodSpec | app.py:1343-1366 | the period ends a quarter on its last day, in last year exactly until April, and at most four months before now; from May to November it is the latest quarter end not after the month, and December gives September |
| AppRules.ReportPeriodLength | app.py:1343-1368 | for a four-digit year the period has eight characters, as the page's slicing assumes |
| AppRules.NormalizeSymbol | app.py:1335-1339 | the result ends in .SH or .SZ and starts with the symbol |
| AppRules.NormalizeIdempotent | app.py:1335-1339 | normalising twice is normalising once |
| AppRules.NormalizeSplit | app.py:732 | splitting at the first dot gives back a dot-free symbol |
| AppRules.ExchangesAgree | app.py:1335-1339 | for a supported code the suffix is .SH exactly when the quote code is "sh" |
| AppRules.ProfitRate | app.py:748 | rate times cost is 100 times profit for a positive cost, 0 otherwise, and positive exactly with profit |
| AppRules.Collected | app.py:743-763 | no more holdings than rows; each has a name, a positive price, quantity times price as value, and value minus cost as profit |
| AppRules.CollectedAppend | app.py:743-763 | rows are filtered one by one: the holdings of two runs of rows are those of each, in order |
| AppRules.CollectedOne | app.py:743-763 | a row yields its holding exactly when it has a name and a positive price, otherwise nothing |
| AppRules.CollectedAllKept | app.py:743-763 | when every row qualifies, every row is kept, in order |
| AppRules.CollectedNoneKept | app.py:743-763 | when no row qualifies, nothing is kept |
| AppRules.CollectAssets | app.py:707-763 | the row loop keeps exactly the rows with a name and a positive price, in order |
| AppRules.ValueLessProfit | app.py:770-772 | total value minus total profit is the total cost |
| AppRules.SubmitTotals | app.py:766-772 | totals exist exactly with a name and holdings; they are the summed value and profit, and the rate times value less profit is 100 times the profit |
| AppRules.SubmitTotalsSpec | app.py:766-772 | totals exist exactly with a name and kept holdings; the total rate is profit over total cost in percent, or 0 without a positive cost |

## Left out

- Floating point: `real` is exact, so rounding (for example sums of shares landing at 0.9999999) and float formatting (`:.2f`) are not modelled.
- `datetime.now()` becomes one `now` parameter per operation; the source may read the clock several times in one call.
- GoalTracking.GoalTracker: goals are values in a `seq`, so aliasing of a goal object held elsewhere is not modelled.
- Analysis.Assess: the catch-all handler of `assess_risk` (analysis.py:141-149) is not modelled; every division in it is guarded, so it cannot fire on well-formed holdings.
- Analysis.RiskWeight: the contract states the bounds; the table itself is stated by `Analysis.RiskWeightTable`.
- MarketData.StockPrice, MarketData.MarketIndex: the error dicts' message texts (`str(e)` and formatting) are replaced by an error datatype that says which step failed.
- MarketData.Overview: the outer handler of `get_market_overview` is not modelled, and the display strings are values (current, percentage) rather than formatted text.
- HTTP requests, the tushare client, the database, the LLM calls and the Streamlit UI are not modelled beyond the values they hand to the core.
- The news, financial and stock-list fetchers of `market_data.py` are not modelled: they are HTTP calls whose results are empty stubs or decoded JSON.
- Compound-interest projections and technical indicators in `app.py` are not modelled: they are floating-point series computations over pandas data.
- Pydantic field validation of the models is not modelled.
- Models.FromDict: the dict is typed; a value of the wrong kind reads as the default, where `data.get` would return it whatever its type.
- AppRules.CollectAssets: the name lookup and the quote that supply each row are parameters of the row.
