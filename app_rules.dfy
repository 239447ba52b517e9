/** The rules the Streamlit pages of `app.py` compute between widgets: the
    risk questionnaire, the choice of the latest report period, the exchange
    suffix of a symbol, and the holdings and totals of the portfolio form.
    Widget values are parameters; the clock is the `year` and `month`
    parameters. */
module AppRules {
  import opened Basics
  import opened Text
  import MarketData

  // ----- the risk questionnaire -----

  const ExperienceOptions: seq<string> := ["新手", "有一定经验", "资深投资者"]
  const GoalOptions: seq<string> := ["保值", "稳健增值", "高收益"]
  const HorizonOptions: seq<string> := ["短期(1年以内)", "中期(1-3年)", "长期(3年以上)"]

  /** The score dicts of the questionnaire: the i-th option of a question
      scores 3(i+1); an answer that is not an option raises `KeyError`. */
  function AnswerScore(options: seq<string>, answer: string): (r: Option<int>)
    ensures r.Some? <==> answer in options
    ensures r.Some? ==> exists i :: 0 <= i < |options| && options[i] == answer && r.value == 3 * (i + 1)
  {
    if options == [] then None
    else if options[0] == answer then Some(3)
    else match AnswerScore(options[1..], answer)
      case None => None
      case Some(x) => Some(x + 3)
  }

  datatype RiskProfile = RiskProfile(totalScore: real, level: string, description: string)

  const ConservativeProfile := "保守型"
  const SteadyProfile := "稳健型"
  const EnterprisingProfile := "进取型"

  /** The level for a total score; both boundaries are inclusive. */
  function ProfileOf(totalScore: real): (r: RiskProfile)
    ensures r.totalScore == totalScore
    ensures r.level == ConservativeProfile <==> totalScore <= 4.0
    ensures r.level == SteadyProfile <==> 4.0 < totalScore <= 7.0
    ensures r.level == EnterprisingProfile <==> 7.0 < totalScore
  {
    if totalScore <= 4.0 then
      RiskProfile(totalScore, ConservativeProfile, "适合低风险投资，如货币基金、国债等")
    else if totalScore <= 7.0 then
      RiskProfile(totalScore, SteadyProfile, "适合中等风险投资，如债券基金、蓝筹股等")
    else
      RiskProfile(totalScore, EnterprisingProfile, "适合高风险投资，如股票、期货等")
  }

  /** The order of the levels, from the most cautious. */
  function LevelRank(level: string): nat {
    if level == ConservativeProfile then 0 else if level == SteadyProfile then 1 else 2
  }

  /** A higher total score never gives a more cautious level. */
  lemma ProfileMonotone(x: real, y: real)
    requires x <= y
    ensures LevelRank(ProfileOf(x).level) <= LevelRank(ProfileOf(y).level)
  {
  }

  /** The evaluation of the questionnaire form: the mean of the three answer
      scores and the slider. */
  function Questionnaire(experience: string, goal: string, horizon: string, slider: int): (r: Option<RiskProfile>)
    ensures r.Some? <==> experience in ExperienceOptions && goal in GoalOptions && horizon in HorizonOptions
  {
    var e := AnswerScore(ExperienceOptions, experience);
    var g := AnswerScore(GoalOptions, goal);
    var t := AnswerScore(HorizonOptions, horizon);
    if e.None? || g.None? || t.None? then None
    else Some(ProfileOf((e.value + g.value + t.value + slider) as real / 4.0))
  }

  /** Each answer scores 3, 6 or 9. */
  lemma {:induction false} AnswerScoreValues(options: seq<string>, answer: string)
    requires |options| == 3 && answer in options
    ensures AnswerScore(options, answer).value in {3, 6, 9}
  {
    var r := AnswerScore(options, answer);
    var i :| 0 <= i < |options| && options[i] == answer && r.value == 3 * (i + 1);
  }

  /** With the slider's range 1..10 the total lies between 2.5 and 9.25. */
  lemma {:induction false} QuestionnaireBounds(experience: string, goal: string, horizon: string, slider: int)
    requires 1 <= slider <= 10
    requires Questionnaire(experience, goal, horizon, slider).Some?
    ensures 2.5 <= Questionnaire(experience, goal, horizon, slider).value.totalScore <= 9.25
  {
    AnswerScoreValues(ExperienceOptions, experience);
    AnswerScoreValues(GoalOptions, goal);
    AnswerScoreValues(HorizonOptions, horizon);
    var sum := AnswerScore(ExperienceOptions, experience).value + AnswerScore(GoalOptions, goal).value
               + AnswerScore(HorizonOptions, horizon).value + slider;
    assert 10 <= sum <= 37;
    assert Questionnaire(experience, goal, horizon, slider).value.totalScore == sum as real / 4.0;
  }

  /** The most cautious answers give the conservative level exactly up to
      slider 7. */
  lemma CautiousAnswers(slider: int)
    ensures Questionnaire("新手", "保值", "短期(1年以内)", slider).value.level == ConservativeProfile
            <==> slider <= 7
  {
    assert AnswerScore(ExperienceOptions, "新手") == Some(3);
    assert AnswerScore(GoalOptions, "保值") == Some(3);
    assert AnswerScore(HorizonOptions, "短期(1年以内)") == Some(3);
  }

  /** The boldest answers give the enterprising level from slider 2 on, since
      slider 1 lands on the inclusive boundary 7. */
  lemma BoldAnswers(slider: int)
    ensures Questionnaire("资深投资者", "高收益", "长期(3年以上)", slider).value.level == EnterprisingProfile
            <==> slider >= 2
  {
    assert AnswerScore(ExperienceOptions, "资深投资者") == Some(9);
    assert AnswerScore(GoalOptions, "高收益") == Some(9);
    assert AnswerScore(HorizonOptions, "长期(3年以上)") == Some(9);
  }

  // ----- the report period -----

  /** The report period requested for a clock reading in `year` and `month`:
      last year's annual report until April, then the first quarter in May,
      the half year in June to August and the third quarter from September. */
  function ReportPeriod(year: nat, month: nat): (r: string)
    requires 1 <= year && 1 <= month <= 12
    ensures EndsWith(r, "1231") <==> month <= 4
    ensures StartsWith(r, Decimal(if month <= 4 then year - 1 else year))
    ensures |r| == |Decimal(if month <= 4 then year - 1 else year)| + 4
  {
    if month <= 3 then Decimal(year - 1) + "1231"
    else if month <= 4 then Decimal(year - 1) + "1231"
    else if month <= 5 then Decimal(year) + "0331"
    else if month <= 8 then Decimal(year) + "0630"
    else if month <= 10 then Decimal(year) + "0930"
    else Decimal(year) + "0930"
  }

  /** The year of a period: all but its last four characters. */
  function PeriodYear(p: string): nat
    requires |p| >= 4
  {
    DecimalValue(p[..|p| - 4])
  }

  /** The month of a period: the two characters before the day. */
  function PeriodMonth(p: string): nat
    requires |p| >= 4
  {
    DecimalValue(p[|p| - 4..|p| - 2])
  }

  /** The last day of a quarter-end month. */
  function QuarterEndDay(month: nat): string {
    if month == 3 || month == 12 then "31" else "30"
  }

  /** The month and day that end a quarter-end month. */
  function QuarterEnd(month: nat): string {
    if month == 3 then "0331" else if month == 6 then "0630" else if month == 9 then "0930" else "1231"
  }

  /** The two digits of a quarter-end month read back as that month. */
  lemma QuarterEndMonth(month: nat)
    requires month == 3 || month == 6 || month == 9 || month == 12
    ensures DigitValue(QuarterEnd(month)[0]) * 10 + DigitValue(QuarterEnd(month)[1]) == month
    ensures QuarterEnd(month)[2..] == QuarterEndDay(month)
  {
  }

  /** A year followed by a quarter end reads back as that year and month. */
  lemma {:induction false} PeriodParts(y: nat, month: nat)
    requires month == 3 || month == 6 || month == 9 || month == 12
    ensures var p := Decimal(y) + QuarterEnd(month);
      |p| >= 5 && PeriodYear(p) == y && PeriodMonth(p) == month && p[|p| - 2..] == QuarterEndDay(month)
  {
    var md := QuarterEnd(month);
    var p := Decimal(y) + md;
    assert p[..|p| - 4] == Decimal(y);
    DecimalRoundTrip(y);
    var mm := p[|p| - 4..|p| - 2];
    assert mm == md[..2];
    assert p[|p| - 2..] == md[2..];
    QuarterEndMonth(month);
    assert mm[..1] == [mm[0]];
    assert DecimalValue(mm[..1]) == DecimalValue([]) * 10 + DigitValue(mm[0]);
  }

  /** Read back, a period names a quarter-end month and its last day, in
      last year exactly until April, and ends at most four months before the
      current month. From May to November it is the latest quarter end not
      after the month; December still gives September. */
  lemma {:induction false} ReportPeriodSpec(year: nat, month: nat)
    requires 1 <= year && 1 <= month <= 12
    ensures var p := ReportPeriod(year, month);
      |p| >= 5
      && PeriodMonth(p) in {3, 6, 9, 12}
      && p[|p| - 2..] == QuarterEndDay(PeriodMonth(p))
      && (PeriodYear(p) + 1 == year <==> month <= 4)
      && (PeriodYear(p) == year <==> month > 4)
      && 0 <= (year * 12 + month) - (PeriodYear(p) * 12 + PeriodMonth(p)) <= 4
      && (5 <= month <= 11 ==> PeriodMonth(p) <= month < PeriodMonth(p) + 3)
      && (month == 12 ==> PeriodMonth(p) == 9)
  {
    var y: nat := if month <= 4 then year - 1 else year;
    var m: nat := if month <= 4 then 12 else if month <= 5 then 3 else if month <= 8 then 6 else 9;
    assert ReportPeriod(year, month) == Decimal(y) + QuarterEnd(m);
    PeriodParts(y, m);
  }

  /** For a four-digit year the period has the eight characters the page
      slices into year, month and day. */
  lemma {:induction false} ReportPeriodLength(year: nat, month: nat)
    requires 1001 <= year <= 9999 && 1 <= month <= 12
    ensures |ReportPeriod(year, month)| == 8
  {
    if month <= 4 {
      DecimalLength4(year - 1);
    } else {
      DecimalLength4(year);
    }
  }

  // ----- the exchange suffix -----

  /** The suffix normalisation before the financial query: a symbol without
      `.SH` or `.SZ` gets `.SH` when it starts with 6 and `.SZ` otherwise. */
  function NormalizeSymbol(symbol: string): (r: string)
    ensures EndsWith(r, ".SH") || EndsWith(r, ".SZ")
    ensures StartsWith(r, symbol)
  {
    if !EndsWith(symbol, ".SH") && !EndsWith(symbol, ".SZ") then
      if StartsWith(symbol, "6") then symbol + ".SH" else symbol + ".SZ"
    else symbol
  }

  /** Normalising twice is normalising once. */
  lemma NormalizeIdempotent(symbol: string)
    ensures NormalizeSymbol(NormalizeSymbol(symbol)) == NormalizeSymbol(symbol)
  {
  }

  /** `symbol.split('.')[0]`, which the portfolio form uses to get back the
      bare code, undoes the normalisation of a code without a dot. */
  lemma {:induction false} NormalizeSplit(symbol: string)
    requires '.' !in symbol
    ensures Split(NormalizeSymbol(symbol), ".")[0] == symbol
  {
    var suffix := NormalizeSymbol(symbol)[|symbol|..];
    assert !EndsWith(symbol, ".SH") && !EndsWith(symbol, ".SZ") by {
      if |symbol| >= 3 {
        assert symbol[|symbol| - 3] in symbol;
      }
    }
    assert NormalizeSymbol(symbol) == symbol + "." + suffix[1..];
    FindAfterHead(symbol, ".", suffix[1..]);
  }

  /** For a supported code without a suffix, the suffix and the quote-code
      prefix name the same exchange. */
  lemma ExchangesAgree(symbol: string)
    requires MarketData.StockCode(symbol).Ok?
    requires !EndsWith(symbol, ".SH") && !EndsWith(symbol, ".SZ")
    ensures EndsWith(NormalizeSymbol(symbol), ".SH") <==> MarketData.StockCode(symbol).value[..2] == "sh"
  {
  }

  // ----- the portfolio form -----

  /** One asset row of the form: the looked-up name (`None` when the lookup
      found nothing), the quoted price (0 when no quote came back), and the
      entered quantity and cost price. */
  datatype AssetRow = AssetRow(symbol: string, name: Option<string>, currentPrice: real,
                               quantity: int, costPrice: real)

  /** The dict saved for a kept row. */
  datatype Holding = Holding(symbol: string, name: string, quantity: int, costPrice: real,
                             currentPrice: real, marketValue: real, profit: real, profitRate: real)

  /** `if name and current_price > 0` */
  predicate Kept(row: AssetRow) {
    row.name.Some? && row.name.value != "" && row.currentPrice > 0.0
  }

  /** The profit as a percentage of the cost value, 0 without a positive cost. */
  function ProfitRate(profit: real, cost: real): (r: real)
    ensures cost > 0.0 ==> r * cost == profit * 100.0
    ensures cost <= 0.0 ==> r == 0.0
    ensures cost > 0.0 ==> (r > 0.0 <==> profit > 0.0)
  {
    if cost > 0.0 then profit / cost * 100.0 else 0.0
  }

  function HoldingOf(row: AssetRow): Holding
    requires Kept(row)
  {
    var marketValue := row.quantity as real * row.currentPrice;
    var costValue := row.quantity as real * row.costPrice;
    var profit := marketValue - costValue;
    Holding(row.symbol, row.name.value, row.quantity, row.costPrice, row.currentPrice,
            marketValue, profit, ProfitRate(profit, costValue))
  }

  /** The holdings the form keeps, in row order: no more than there are rows,
      and each one consistent. */
  function Collected(rows: seq<AssetRow>): (r: seq<Holding>)
    ensures |r| <= |rows|
    ensures forall i :: 0 <= i < |r| ==> Consistent(r[i])
  {
    if rows == [] then []
    else
      var last := rows[|rows| - 1];
      Collected(rows[..|rows| - 1]) + (if Kept(last) then [HoldingOf(last)] else [])
  }

  /** The form is filtered row by row: collecting two runs of rows one after
      the other gives the holdings of each, in order. */
  lemma {:induction false} CollectedAppend(a: seq<AssetRow>, b: seq<AssetRow>)
    ensures Collected(a + b) == Collected(a) + Collected(b)
  {
    if b == [] {
      assert a + b == a;
    } else {
      var init := b[..|b| - 1];
      assert (a + b)[..|a + b| - 1] == a + init;
      CollectedAppend(a, init);
    }
  }

  /** One row yields its holding exactly when it has a name and a positive
      price, and nothing otherwise. */
  lemma CollectedOne(row: AssetRow)
    ensures Collected([row]) == if Kept(row) then [HoldingOf(row)] else []
  {
    assert [row][..0] == [];
  }

  /** A well-formed holding: found by name, quoted above 0, valued at its
      quantity times its price, and its profit the value above the cost. */
  predicate Consistent(h: Holding) {
    h.name != "" && h.currentPrice > 0.0
    && h.marketValue == h.quantity as real * h.currentPrice
    && h.profit == h.marketValue - h.quantity as real * h.costPrice
  }

  /** A form whose rows are all kept keeps every row, in order. */
  lemma {:induction false} CollectedAllKept(rows: seq<AssetRow>)
    requires forall i :: 0 <= i < |rows| ==> Kept(rows[i])
    ensures |Collected(rows)| == |rows|
    ensures forall i :: 0 <= i < |rows| ==> Collected(rows)[i] == HoldingOf(rows[i])
  {
    if rows != [] {
      var init := rows[..|rows| - 1];
      assert forall i :: 0 <= i < |init| ==> init[i] == rows[i];
      CollectedAllKept(init);
    }
  }

  /** A form whose rows are all dropped keeps nothing. */
  lemma {:induction false} CollectedNoneKept(rows: seq<AssetRow>)
    requires forall i :: 0 <= i < |rows| ==> !Kept(rows[i])
    ensures Collected(rows) == []
  {
    if rows != [] {
      var init := rows[..|rows| - 1];
      assert forall i :: 0 <= i < |init| ==> init[i] == rows[i];
      CollectedNoneKept(init);
    }
  }

  /** The loop of the portfolio form over its asset rows. */
  method CollectAssets(rows: seq<AssetRow>) returns (assets: seq<Holding>)
    ensures assets == Collected(rows)
  {
    assets := [];
    for i := 0 to |rows|
      invariant assets == Collected(rows[..i])
    {
      var row := rows[i];
      assert rows[..i + 1][..i] == rows[..i];
      assert Collected(rows[..i + 1]) == assets + if Kept(row) then [HoldingOf(row)] else [];
      if row.name.Some? && row.name.value != "" && row.currentPrice > 0.0 {
        var marketValue := row.quantity as real * row.currentPrice;
        var costValue := row.quantity as real * row.costPrice;
        var profit := marketValue - costValue;
        var profitRate := if costValue > 0.0 then profit / costValue * 100.0 else 0.0;
        var holding := Holding(row.symbol, row.name.value, row.quantity, row.costPrice,
                               row.currentPrice, marketValue, profit, profitRate);
        assert holding == HoldingOf(row);
        assets := assets + [holding];
      }
    }
    assert rows[..|rows|] == rows;
  }

  function SumMarketValue(s: seq<Holding>): real {
    if s == [] then 0.0 else SumMarketValue(s[..|s| - 1]) + s[|s| - 1].marketValue
  }

  function SumProfit(s: seq<Holding>): real {
    if s == [] then 0.0 else SumProfit(s[..|s| - 1]) + s[|s| - 1].profit
  }

  /** The cost value of holdings: quantity times cost price. */
  function SumCost(s: seq<Holding>): real {
    if s == [] then 0.0 else SumCost(s[..|s| - 1]) + s[|s| - 1].quantity as real * s[|s| - 1].costPrice
  }

  /** For consistent holdings the total value less the total profit is the
      total cost. */
  lemma {:induction false} ValueLessProfit(s: seq<Holding>)
    requires forall i :: 0 <= i < |s| ==> Consistent(s[i])
    ensures SumMarketValue(s) - SumProfit(s) == SumCost(s)
  {
    if s != [] {
      var init := s[..|s| - 1];
      assert forall i :: 0 <= i < |init| ==> init[i] == s[i];
      ValueLessProfit(init);
      assert Consistent(s[|s| - 1]);
    }
  }

  datatype PortfolioTotals = PortfolioTotals(totalValue: real, totalProfit: real, totalProfitRate: real)

  /** The totals computed on submitting the form; nothing is created without
      a name or without kept assets. */
  function SubmitTotals(portfolioName: string, assets: seq<Holding>): (r: Option<PortfolioTotals>)
    ensures r.Some? <==> portfolioName != "" && assets != []
    ensures r.Some? ==> r.value.totalValue == SumMarketValue(assets) && r.value.totalProfit == SumProfit(assets)
    ensures r.Some? && SumMarketValue(assets) - SumProfit(assets) > 0.0 ==>
      r.value.totalProfitRate * (SumMarketValue(assets) - SumProfit(assets)) == r.value.totalProfit * 100.0
  {
    if portfolioName == "" || assets == [] then None
    else
      var totalValue := SumMarketValue(assets);
      var totalProfit := SumProfit(assets);
      Some(PortfolioTotals(totalValue, totalProfit, ProfitRate(totalProfit, totalValue - totalProfit)))
  }

  /** The total profit rate of the collected holdings is the total profit as
      a percentage of their total cost. */
  lemma {:induction false} SubmitTotalsSpec(portfolioName: string, rows: seq<AssetRow>)
    ensures var t := SubmitTotals(portfolioName, Collected(rows));
      (t.Some? <==> portfolioName != "" && Collected(rows) != [])
      && (t.Some? && SumCost(Collected(rows)) > 0.0 ==>
            t.value.totalProfitRate * SumCost(Collected(rows)) == t.value.totalProfit * 100.0)
      && (t.Some? && SumCost(Collected(rows)) <= 0.0 ==> t.value.totalProfitRate == 0.0)
  {
    ValueLessProfit(Collected(rows));
  }
}
