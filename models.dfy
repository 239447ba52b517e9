/** The records of `models.py`: holdings, portfolios with their dict form and
    their own risk score, goals, and the two computed snapshots (risk
    assessment, strategy). Timestamps are whole seconds. */
module Models {
  import opened Basics

  /** `InvestmentAsset`: one holding. `costPrice` and `purchasePrice` are two
      separate fields in the source and different code reads each. */
  datatype Asset = Asset(
    symbol: string,
    name: string,
    category: string,
    quantity: int,
    costPrice: real,
    currentPrice: real,
    purchasePrice: real,
    purchaseDate: int,
    lastUpdated: int)

  function MarketValue(a: Asset): real {
    a.quantity as real * a.currentPrice
  }

  function PurchaseCost(a: Asset): real {
    a.quantity as real * a.purchasePrice
  }

  /** Neither quantity nor current price is negative. */
  predicate NonNegative(a: Asset) {
    a.quantity >= 0 && a.currentPrice >= 0.0
  }

  lemma MarketValueNonNegative(a: Asset)
    requires NonNegative(a)
    ensures MarketValue(a) >= 0.0
  {
  }

  /** `sum(asset.quantity * asset.current_price for asset in assets)` */
  function TotalValue(s: seq<Asset>): real {
    if s == [] then 0.0 else TotalValue(s[..|s| - 1]) + MarketValue(s[|s| - 1])
  }

  /** `sum(asset.quantity * asset.purchase_price for asset in assets)` */
  function TotalCost(s: seq<Asset>): (r: real)
    ensures (forall i :: 0 <= i < |s| ==> s[i].quantity >= 0 && s[i].purchasePrice >= 0.0) ==> r >= 0.0
  {
    if s == [] then 0.0 else TotalCost(s[..|s| - 1]) + PurchaseCost(s[|s| - 1])
  }

  /** The total of a concatenation is the sum of the totals. */
  lemma {:induction false} TotalValueAppend(s: seq<Asset>, t: seq<Asset>)
    ensures TotalValue(s + t) == TotalValue(s) + TotalValue(t)
    decreases |t|
  {
    if t != [] {
      assert (s + t)[..|s + t| - 1] == s + t[..|t| - 1];
      TotalValueAppend(s, t[..|t| - 1]);
    } else {
      assert s + t == s;
    }
  }

  /** Non-negative holdings have a non-negative total value. */
  lemma {:induction false} TotalValueNonNegative(s: seq<Asset>)
    requires forall i :: 0 <= i < |s| ==> NonNegative(s[i])
    ensures TotalValue(s) >= 0.0
  {
    if s != [] {
      TotalValueNonNegative(s[..|s| - 1]);
      MarketValueNonNegative(s[|s| - 1]);
    }
  }

  /** `InvestmentPortfolio` */
  datatype Portfolio = Portfolio(
    name: string,
    riskTolerance: string,
    initialCapital: real,
    investmentGoal: string,
    assets: seq<Asset>,
    totalValue: real,
    riskScore: real,
    createdAt: int,
    isActive: bool)

  /** `InvestmentPortfolio.__init__`: the creation time is the caller's clock
      reading and a new portfolio is active. */
  function NewPortfolio(name: string, riskTolerance: string, initialCapital: real,
                        investmentGoal: string, assets: seq<Asset>, totalValue: real,
                        riskScore: real, now: int): (p: Portfolio)
    ensures p.assets == assets && p.createdAt == now && p.isActive
  {
    Portfolio(name, riskTolerance, initialCapital, investmentGoal, assets,
              totalValue, riskScore, now, true)
  }

  /** A value stored in the dict form of a portfolio. */
  datatype FieldValue = Text(text: string) | Number(number: real) | Moment(moment: int) | Flag(flag: bool)

  /** The eight keys of the dict form; there is none for the holdings. */
  const DictKeys: set<string> := {"name", "risk_tolerance", "initial_capital", "investment_goal",
                                  "total_value", "risk_score", "created_at", "is_active"}

  /** `InvestmentPortfolio.to_dict`: the holdings are not part of it. */
  function ToDict(p: Portfolio): (d: map<string, FieldValue>)
    ensures d.Keys == DictKeys
  {
    map[
      "name" := Text(p.name),
      "risk_tolerance" := Text(p.riskTolerance),
      "initial_capital" := Number(p.initialCapital),
      "investment_goal" := Text(p.investmentGoal),
      "total_value" := Number(p.totalValue),
      "risk_score" := Number(p.riskScore),
      "created_at" := Moment(p.createdAt),
      "is_active" := Flag(p.isActive)]
  }

  /** `data.get(key, default)` for a text field. */
  function TextOr(d: map<string, FieldValue>, key: string, default: string): string {
    if key in d && d[key].Text? then d[key].text else default
  }

  /** `data.get(key, default)` for a numeric field. */
  function NumberOr(d: map<string, FieldValue>, key: string, default: real): real {
    if key in d && d[key].Number? then d[key].number else default
  }

  /** `InvestmentPortfolio.from_dict`: reads six keys, each with its default,
      and builds a new portfolio through the constructor. */
  function FromDict(d: map<string, FieldValue>, now: int): (p: Portfolio)
    ensures "name" !in d ==> p.name == ""
    ensures "risk_tolerance" !in d ==> p.riskTolerance == "稳健"
    ensures "initial_capital" !in d ==> p.initialCapital == 0.0
    ensures "investment_goal" !in d ==> p.investmentGoal == "长期财富增值"
    ensures "total_value" !in d ==> p.totalValue == 0.0
    ensures "risk_score" !in d ==> p.riskScore == 0.0
    ensures "name" in d && d["name"].Text? ==> p.name == d["name"].text
    ensures "risk_tolerance" in d && d["risk_tolerance"].Text? ==> p.riskTolerance == d["risk_tolerance"].text
    ensures "initial_capital" in d && d["initial_capital"].Number? ==> p.initialCapital == d["initial_capital"].number
    ensures "investment_goal" in d && d["investment_goal"].Text? ==> p.investmentGoal == d["investment_goal"].text
    ensures "total_value" in d && d["total_value"].Number? ==> p.totalValue == d["total_value"].number
    ensures "risk_score" in d && d["risk_score"].Number? ==> p.riskScore == d["risk_score"].number
    ensures p.assets == [] && p.createdAt == now && p.isActive
  {
    NewPortfolio(
      TextOr(d, "name", ""),
      TextOr(d, "risk_tolerance", "稳健"),
      NumberOr(d, "initial_capital", 0.0),
      TextOr(d, "investment_goal", "长期财富增值"),
      [],
      NumberOr(d, "total_value", 0.0),
      NumberOr(d, "risk_score", 0.0),
      now)
  }

  /** Through its dict form a portfolio keeps its six scalar fields, loses its
      holdings, and becomes a new active portfolio created at `now`. */
  lemma {:induction false} DictRoundTrip(p: Portfolio, now: int)
    ensures FromDict(ToDict(p), now) == p.(assets := [], createdAt := now, isActive := true)
  {
  }

  function Abs(x: real): real {
    if x < 0.0 then -x else x
  }

  /** The coefficient `calculate_risk_score` applies for a risk tolerance
      label; any other label counts as "稳健". */
  function ToleranceCoefficient(tolerance: string): (c: real)
    ensures tolerance == "保守" ==> c == 0.5
    ensures tolerance == "激进" ==> c == 1.5
    ensures tolerance != "保守" && tolerance != "激进" ==> c == 1.0
  {
    if tolerance == "保守" then 0.5
    else if tolerance == "稳健" then 1.0
    else if tolerance == "激进" then 1.5
    else 1.0
  }

  predicate HasZeroCost(s: seq<Asset>) {
    exists a :: a in s && a.costPrice == 0.0
  }

  /** Σ (value / total) × |current − cost| / cost over the holdings. */
  function WeightedVolatility(s: seq<Asset>, total: real): real
    requires total != 0.0 && !HasZeroCost(s)
  {
    if s == [] then 0.0
    else
      var a := s[|s| - 1];
      assert forall b :: b in s[..|s| - 1] ==> b in s;
      WeightedVolatility(s[..|s| - 1], total)
        + (MarketValue(a) / total) * (Abs(a.currentPrice - a.costPrice) / a.costPrice)
  }

  datatype ScoreError = ZeroCostPrice

  /** `InvestmentPortfolio.calculate_risk_score`. The source divides by each
      holding's cost price without a guard, so a zero cost price raises. */
  function PortfolioRiskScore(p: Portfolio): (r: Result<real, ScoreError>)
    ensures r.Err? <==> p.assets != [] && TotalValue(p.assets) != 0.0 && HasZeroCost(p.assets)
    ensures p.assets == [] || TotalValue(p.assets) == 0.0 ==> r == Ok(0.0)
  {
    if p.assets == [] then Ok(0.0)
    else
      var coefficient := ToleranceCoefficient(p.riskTolerance);
      var total := TotalValue(p.assets);
      if total == 0.0 then Ok(0.0)
      else if HasZeroCost(p.assets) then Err(ZeroCostPrice)
      else Ok(WeightedVolatility(p.assets, total) * coefficient)
  }

  /** With positive costs and non-negative holdings each term is non-negative. */
  lemma {:induction false} WeightedVolatilityNonNegative(s: seq<Asset>, total: real)
    requires total > 0.0
    requires forall i :: 0 <= i < |s| ==> NonNegative(s[i]) && s[i].costPrice > 0.0
    ensures !HasZeroCost(s) && WeightedVolatility(s, total) >= 0.0
  {
    if s != [] {
      WeightedVolatilityNonNegative(s[..|s| - 1], total);
      var a := s[|s| - 1];
      assert MarketValue(a) >= 0.0;
      assert MarketValue(a) / total >= 0.0;
      assert Abs(a.currentPrice - a.costPrice) / a.costPrice >= 0.0;
    }
  }

  /** For holdings with positive cost prices the score is non-negative, and a
      more risk-tolerant label never lowers it. */
  lemma {:induction false} PortfolioRiskScoreOrdered(p: Portfolio)
    requires forall i :: 0 <= i < |p.assets| ==> NonNegative(p.assets[i]) && p.assets[i].costPrice > 0.0
    ensures PortfolioRiskScore(p).Ok? && PortfolioRiskScore(p).value >= 0.0
    ensures PortfolioRiskScore(p.(riskTolerance := "保守")).value
         <= PortfolioRiskScore(p.(riskTolerance := "稳健")).value
         <= PortfolioRiskScore(p.(riskTolerance := "激进")).value
  {
    if p.assets != [] {
      TotalValueNonNegative(p.assets);
      if TotalValue(p.assets) != 0.0 {
        WeightedVolatilityNonNegative(p.assets, TotalValue(p.assets));
      }
    }
  }

  /** `InvestmentGoal` */
  datatype Goal = Goal(
    name: string,
    targetAmount: real,
    currentAmount: real,
    deadline: int,
    riskTolerance: string,
    progress: real,
    createdAt: int)

  /** `InvestmentGoal(...)` built without the defaulted fields: nothing saved
      and no progress yet. */
  function NewGoal(name: string, targetAmount: real, deadline: int, riskTolerance: string,
                   now: int): (g: Goal)
    ensures g.currentAmount == 0.0 && g.progress == 0.0 && g.createdAt == now
    ensures g.name == name && g.targetAmount == targetAmount && g.deadline == deadline
    ensures g.riskTolerance == riskTolerance
  {
    Goal(name, targetAmount, 0.0, deadline, riskTolerance, 0.0, now)
  }

  /** The three levels `assess_risk` reports. */
  datatype RiskLevel = Low | Medium | High {
    function Label(): string {
      match this
      case Low => "低"
      case Medium => "中"
      case High => "高"
    }
  }

  /** `RiskAssessment` */
  datatype RiskAssessment = RiskAssessment(
    riskScore: real,
    riskLevel: RiskLevel,
    riskFactors: seq<string>,
    suggestions: seq<string>,
    assessmentDate: int)

  /** The three archetypes `recommend_strategy` chooses from. */
  datatype StrategyType = Conservative | Balanced | Aggressive {
    function Label(): string {
      match this
      case Conservative => "保守型"
      case Balanced => "平衡型"
      case Aggressive => "进取型"
    }
  }

  /** `InvestmentStrategy` */
  datatype InvestmentStrategy = InvestmentStrategy(
    strategyType: StrategyType,
    strategyPoints: seq<string>,
    suitabilityScore: real,
    expectedReturn: real,
    riskLevel: string,
    createdAt: int)
}
