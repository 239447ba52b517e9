/** `InvestmentAnalysis` (analysis.py): valuation, allocation by category, the
    category-weighted risk score, the rule-based risk assessment and the
    strategy recommendation. The analysis object only holds a portfolio, so
    every operation here takes that portfolio's holdings. */
module Analysis {
  import opened Arithmetic
  import opened Text
  import opened OrderedDicts
  import opened Models

  // ----- valuation -----

  /** The guarded return of `calculate_portfolio_metrics`: no division when
      the cost is not positive. */
  function TotalReturn(value: real, cost: real): (r: real)
    ensures cost <= 0.0 ==> r == 0.0
    ensures cost > 0.0 ==> r * cost == value - cost
  {
    if cost > 0.0 then (value - cost) / cost else 0.0
  }

  // ----- real arithmetic facts, each kept in a context of its own -----

  lemma DivSelf(t: real)
    requires t != 0.0
    ensures t / t == 1.0
  {
  }

  lemma BetweenStep(x: real, p: real, m: real, w: real, t: real)
    requires t > 0.0 && m >= 0.0 && 0.1 <= w <= 0.8
    requires 0.1 * (p / t) <= x <= 0.8 * (p / t)
    ensures 0.1 * ((p + m) / t) <= x + (m / t) * w <= 0.8 * ((p + m) / t)
  {
    assert (p + m) / t == p / t + m / t;
    assert 0.1 * (m / t) <= (m / t) * w <= 0.8 * (m / t);
  }

  /** Adding a value `m` weighted by `w` to `w` times a share of `t` gives
      `w` times the larger share. */
  lemma ScaleStep(x: real, p: real, m: real, w: real, t: real)
    requires t != 0.0 && x == w * (p / t)
    ensures x + (m / t) * w == w * ((p + m) / t)
  {
    assert (p + m) / t == p / t + m / t;
  }

  // ----- grouping by category -----

  /** The categories present among the holdings. */
  predicate HasCategory(s: seq<Asset>, c: string) {
    exists a :: a in s && a.category == c
  }

  /** The market value held in one category. */
  function CategoryValue(s: seq<Asset>, c: string): real {
    if s == [] then 0.0
    else CategoryValue(s[..|s| - 1], c) + (if s[|s| - 1].category == c then MarketValue(s[|s| - 1]) else 0.0)
  }

  /** The dict `assess_risk` builds: category to summed market value, in
      order of first appearance. */
  function CategoryTotals(s: seq<Asset>): seq<Entry> {
    if s == [] then []
    else
      var d, a := CategoryTotals(s[..|s| - 1]), s[|s| - 1];
      Put(d, a.category, Get(d, a.category, 0.0) + MarketValue(a))
  }

  /** The dict `_calculate_asset_allocation` builds: each holding adds its
      share of the total to its category. */
  function Allocation(s: seq<Asset>, total: real): seq<Entry>
    requires total != 0.0
  {
    if s == [] then []
    else
      var d, a := Allocation(s[..|s| - 1], total), s[|s| - 1];
      Put(d, a.category, Get(d, a.category, 0.0) + MarketValue(a) / total)
  }

  /** A category is present exactly when it is present before the last
      holding or is the last holding's. */
  lemma {:induction false} HasCategoryLast(s: seq<Asset>, c: string)
    requires s != []
    ensures HasCategory(s, c) <==> HasCategory(s[..|s| - 1], c) || s[|s| - 1].category == c
  {
    assert s == s[..|s| - 1] + [s[|s| - 1]];
    if HasCategory(s, c) {
      var a :| a in s && a.category == c;
      if a != s[|s| - 1] {
        assert a in s[..|s| - 1];
      }
    }
    if HasCategory(s[..|s| - 1], c) {
      var a :| a in s[..|s| - 1] && a.category == c;
      assert a in s;
    }
  }

  /** The category dict has distinct keys. */
  lemma {:induction false} CategoryTotalsDistinct(s: seq<Asset>)
    ensures DistinctKeys(CategoryTotals(s))
  {
    if s != [] {
      var init, a := s[..|s| - 1], s[|s| - 1];
      var d := CategoryTotals(init);
      CategoryTotalsDistinct(init);
      PutKeepsDistinct(d, a.category, Get(d, a.category, 0.0) + MarketValue(a));
    }
  }

  /** The category dict has a key for a category exactly when it is present. */
  lemma {:induction false} CategoryTotalsHas(s: seq<Asset>, c: string)
    ensures c in KeySeq(CategoryTotals(s)) <==> HasCategory(s, c)
  {
    if s != [] {
      var init, a := s[..|s| - 1], s[|s| - 1];
      var d := CategoryTotals(init);
      var ks := KeySeq(d);
      var ps := KeySeq(Put(d, a.category, Get(d, a.category, 0.0) + MarketValue(a)));
      CategoryTotalsHas(init, c);
      CategoryTotalsHas(init, a.category);
      HasCategoryLast(s, c);
      PutKeys(d, a.category, Get(d, a.category, 0.0) + MarketValue(a));
      if a.category in ks {
        assert ps == ks;
      } else {
        assert ps == ks + [a.category];
        assert c in ps <==> c in ks || c == a.category;
      }
    }
  }

  /** The category dict has a key exactly for each category present. */
  lemma {:induction false} CategoryTotalsKeys(s: seq<Asset>)
    ensures forall c :: c in KeySeq(CategoryTotals(s)) <==> HasCategory(s, c)
  {
    forall c ensures c in KeySeq(CategoryTotals(s)) <==> HasCategory(s, c) {
      CategoryTotalsHas(s, c);
    }
  }

  /** The category dict holds each category's value. */
  lemma {:induction false} CategoryTotalsGet(s: seq<Asset>, c: string)
    ensures Get(CategoryTotals(s), c, 0.0) == CategoryValue(s, c)
  {
    if s != [] {
      var init, a := s[..|s| - 1], s[|s| - 1];
      var d := CategoryTotals(init);
      CategoryTotalsGet(init, c);
      CategoryTotalsGet(init, a.category);
      PutGet(d, a.category, Get(d, a.category, 0.0) + MarketValue(a), c, 0.0);
    }
  }

  /** The category dict's values add up to the portfolio value. */
  lemma {:induction false} CategoryTotalsSum(s: seq<Asset>)
    ensures SumValues(CategoryTotals(s)) == TotalValue(s)
  {
    if s != [] {
      var init, a := s[..|s| - 1], s[|s| - 1];
      var d := CategoryTotals(init);
      CategoryTotalsSum(init);
      PutSum(d, a.category, Get(d, a.category, 0.0) + MarketValue(a));
    }
  }

  /** The allocation has the same keys in the same order as the category dict. */
  lemma {:induction false} AllocationKeys(s: seq<Asset>, total: real)
    requires total != 0.0
    ensures KeySeq(Allocation(s, total)) == KeySeq(CategoryTotals(s))
  {
    if s != [] {
      var init, a := s[..|s| - 1], s[|s| - 1];
      AllocationKeys(init, total);
      var d, e := Allocation(init, total), CategoryTotals(init);
      PutSameKeys(d, e, a.category, Get(d, a.category, 0.0) + MarketValue(a) / total, Get(e, a.category, 0.0) + MarketValue(a));
    }
  }

  /** The allocation gives each category its value divided by the total. */
  lemma {:induction false} AllocationGet(s: seq<Asset>, total: real, c: string)
    requires total != 0.0
    ensures Get(Allocation(s, total), c, 0.0) == CategoryValue(s, c) / total
  {
    if s != [] {
      var init, a := s[..|s| - 1], s[|s| - 1];
      AllocationGet(init, total, c);
      var d := Allocation(init, total);
      PutGet(d, a.category, Get(d, a.category, 0.0) + MarketValue(a) / total, c, 0.0);
      if c == a.category {
        DivAdd(CategoryValue(init, c), MarketValue(a), total);
      }
    }
  }

  /** The allocation's fractions add up to the portfolio value over the total. */
  lemma {:induction false} AllocationSum(s: seq<Asset>, total: real)
    requires total != 0.0
    ensures SumValues(Allocation(s, total)) == TotalValue(s) / total
  {
    if s != [] {
      var init, a := s[..|s| - 1], s[|s| - 1];
      AllocationSum(init, total);
      AllocationGet(init, total, a.category);
      var d := Allocation(init, total);
      PutSum(d, a.category, Get(d, a.category, 0.0) + MarketValue(a) / total);
      DivAdd(TotalValue(init), MarketValue(a), total);
    }
  }

  /** When the portfolio is worth something, its allocation fractions add up
      to one. */
  lemma {:induction false} AllocationSumsToOne(s: seq<Asset>)
    requires TotalValue(s) != 0.0
    ensures SumValues(Allocation(s, TotalValue(s))) == 1.0
  {
    AllocationSum(s, TotalValue(s));
    DivSelf(TotalValue(s));
  }

  /** `_calculate_asset_allocation`: empty when the portfolio is worth
      nothing; otherwise one entry per category present, holding that
      category's share of the total value, the shares adding up to one. */
  method CalculateAssetAllocation(assets: seq<Asset>) returns (allocation: seq<Entry>)
    ensures TotalValue(assets) == 0.0 ==> allocation == []
    ensures TotalValue(assets) != 0.0 ==> allocation == Allocation(assets, TotalValue(assets))
    ensures TotalValue(assets) != 0.0 ==>
      && DistinctKeys(allocation)
      && (forall c :: c in KeySeq(allocation) <==> HasCategory(assets, c))
      && (forall c :: Get(allocation, c, 0.0) == CategoryValue(assets, c) / TotalValue(assets))
      && SumValues(allocation) == 1.0
  {
    var total := TotalValue(assets);
    if total == 0.0 {
      return [];
    }
    allocation := [];
    var i := 0;
    while i < |assets|
      invariant 0 <= i <= |assets|
      invariant allocation == Allocation(assets[..i], total)
    {
      var a := assets[i];
      assert assets[..i + 1][..i] == assets[..i];
      allocation := Put(allocation, a.category, Get(allocation, a.category, 0.0) + MarketValue(a) / total);
      i := i + 1;
    }
    assert assets[..i] == assets;
    AllocationKeys(assets, total);
    CategoryTotalsDistinct(assets);
    CategoryTotalsKeys(assets);
    forall c ensures Get(allocation, c, 0.0) == CategoryValue(assets, c) / total {
      AllocationGet(assets, total, c);
    }
    AllocationSumsToOne(assets);
  }

  // ----- category-weighted risk score -----

  /** The risk weight of a category; unknown categories weigh 0.5. */
  function RiskWeight(category: string): (w: real)
    ensures 0.1 <= w <= 0.8
  {
    if category == "股票" then 0.8
    else if category == "基金" then 0.6
    else if category == "债券" then 0.3
    else if category == "现金" then 0.1
    else 0.5
  }

  /** The weight table: stocks 0.8, funds 0.6, bonds 0.3, cash 0.1, and 0.5
      for any other category. */
  lemma RiskWeightTable(category: string)
    ensures RiskWeight("股票") == 0.8 && RiskWeight("基金") == 0.6
    ensures RiskWeight("债券") == 0.3 && RiskWeight("现金") == 0.1
    ensures category != "股票" && category != "基金" && category != "债券" && category != "现金"
        ==> RiskWeight(category) == 0.5
  {
  }

  /** Σ (value / total) × weight(category) over the holdings. */
  function WeightedRisk(s: seq<Asset>, total: real): real
    requires total != 0.0
  {
    if s == [] then 0.0
    else WeightedRisk(s[..|s| - 1], total) + (MarketValue(s[|s| - 1]) / total) * RiskWeight(s[|s| - 1].category)
  }

  /** What `_calculate_risk_score` returns. */
  function WeightedRiskScore(s: seq<Asset>): real {
    if s == [] || TotalValue(s) == 0.0 then 0.0 else WeightedRisk(s, TotalValue(s))
  }

  /** Each prefix's weighted risk lies between the lightest and the heaviest
      weight times the prefix's share of the total. */
  lemma {:induction false} WeightedRiskBetween(s: seq<Asset>, total: real)
    requires total > 0.0
    requires forall a :: a in s ==> NonNegative(a)
    ensures 0.1 * (TotalValue(s) / total) <= WeightedRisk(s, total) <= 0.8 * (TotalValue(s) / total)
  {
    if s != [] {
      var init, a := s[..|s| - 1], s[|s| - 1];
      assert forall b :: b in init ==> b in s;
      WeightedRiskBetween(init, total);
      assert a in s;
      MarketValueNonNegative(a);
      BetweenStep(WeightedRisk(init, total), TotalValue(init), MarketValue(a), RiskWeight(a.category), total);
    }
  }

  /** For holdings without negative quantities or prices, the weighted score
      of a portfolio worth something is a weighted mean of the category
      weights, so it lies in [0.1, 0.8]. */
  lemma {:induction false} WeightedRiskScoreBounds(s: seq<Asset>)
    requires forall a :: a in s ==> NonNegative(a)
    requires TotalValue(s) > 0.0
    ensures 0.1 <= WeightedRiskScore(s) <= 0.8
  {
    WeightedRiskBetween(s, TotalValue(s));
    DivSelf(TotalValue(s));
  }

  /** The weighted risk of holdings that all share one category is that
      category's weight times their share of the total. */
  lemma {:induction false} SingleCategoryRisk(s: seq<Asset>, c: string, total: real)
    requires total != 0.0
    requires forall i :: 0 <= i < |s| ==> s[i].category == c
    ensures WeightedRisk(s, total) == RiskWeight(c) * (TotalValue(s) / total)
  {
    if s == [] {
      assert TotalValue(s) / total == 0.0;
    } else {
      var init, a := s[..|s| - 1], s[|s| - 1];
      SingleCategoryRisk(init, c, total);
      ScaleStep(WeightedRisk(init, total), TotalValue(init), MarketValue(a), RiskWeight(c), total);
    }
  }

  /** A portfolio worth something whose holdings all share one category
      scores exactly that category's weight. */
  lemma {:induction false} SingleCategoryScore(s: seq<Asset>, c: string)
    requires TotalValue(s) != 0.0
    requires forall i :: 0 <= i < |s| ==> s[i].category == c
    ensures WeightedRiskScore(s) == RiskWeight(c)
  {
    SingleCategoryRisk(s, c, TotalValue(s));
    DivSelf(TotalValue(s));
  }

  /** `_calculate_risk_score`: 0 for no holdings or a worthless portfolio,
      otherwise the value-weighted mean of the category weights. */
  method CalculateRiskScore(assets: seq<Asset>) returns (score: real)
    ensures score == WeightedRiskScore(assets)
    ensures assets == [] || TotalValue(assets) == 0.0 ==> score == 0.0
    ensures (forall a :: a in assets ==> NonNegative(a)) && TotalValue(assets) > 0.0 ==> 0.1 <= score <= 0.8
  {
    if assets == [] {
      return 0.0;
    }
    var total := TotalValue(assets);
    if total == 0.0 {
      return 0.0;
    }
    score := 0.0;
    var i := 0;
    while i < |assets|
      invariant 0 <= i <= |assets|
      invariant score == WeightedRisk(assets[..i], total)
    {
      var a := assets[i];
      assert assets[..i + 1][..i] == assets[..i];
      score := score + (MarketValue(a) / total) * RiskWeight(a.category);
      i := i + 1;
    }
    assert assets[..i] == assets;
    if forall a :: a in assets ==> NonNegative(a) {
      if total > 0.0 {
        WeightedRiskScoreBounds(assets);
      }
    }
  }

  /** The result of `calculate_portfolio_metrics`. */
  datatype PortfolioMetrics = PortfolioMetrics(
    totalValue: real,
    totalCost: real,
    totalReturn: real,
    assetAllocation: seq<Entry>,
    riskScore: real)

  /** `calculate_portfolio_metrics`: value at current prices, cost at
      purchase prices, the guarded return, the allocation and the weighted
      risk score. */
  method CalculatePortfolioMetrics(assets: seq<Asset>) returns (m: PortfolioMetrics)
    ensures m.totalValue == TotalValue(assets) && m.totalCost == TotalCost(assets)
    ensures m.totalCost > 0.0 ==> m.totalReturn * m.totalCost == m.totalValue - m.totalCost
    ensures m.totalCost <= 0.0 ==> m.totalReturn == 0.0
    ensures m.totalValue == 0.0 ==> m.assetAllocation == []
    ensures m.totalValue != 0.0 ==> m.assetAllocation == Allocation(assets, m.totalValue)
    ensures m.totalValue != 0.0 ==>
      && (forall c :: c in KeySeq(m.assetAllocation) <==> HasCategory(assets, c))
      && (forall c :: Get(m.assetAllocation, c, 0.0) == CategoryValue(assets, c) / m.totalValue)
      && SumValues(m.assetAllocation) == 1.0
    ensures m.riskScore == WeightedRiskScore(assets)
  {
    var totalValue := TotalValue(assets);
    var totalCost := TotalCost(assets);
    var totalReturn := TotalReturn(totalValue, totalCost);
    var allocation := CalculateAssetAllocation(assets);
    var riskScore := CalculateRiskScore(assets);
    m := PortfolioMetrics(totalValue, totalCost, totalReturn, allocation, riskScore);
  }

  // ----- rule-based risk assessment -----

  const ConcentrationFactor := "资产类别过于集中"
  const DominanceMarker := "占比过高"
  const GainMarker := "涨幅过大"
  const LossMarker := "跌幅较大"
  const EmptyFactor := "投资组合为空"
  const EmptySuggestion := "添加资产以开始投资"
  const DiversifySuggestion := "建议增加资产类别，实现多元化投资"
  const RebalanceSuggestion := "建议调整资产配置，降低单一资产占比"
  const TakeProfitSuggestion := "建议考虑部分获利了结"
  const StopLossSuggestion := "建议评估是否需要止损"

  /** The dominance rule over the category dict, in its order: each category
      holding more than half of the total adds the factor "<category>占比过高". */
  function DominanceFactors(d: seq<Entry>, total: real): seq<string>
    requires total != 0.0
  {
    if d == [] then []
    else
      DominanceFactors(d[..|d| - 1], total)
        + (if d[|d| - 1].val / total > 0.5 then [d[|d| - 1].key + DominanceMarker] else [])
  }

  /** A holding bought at a non-zero cost that now trades above 1.5 times it. */
  predicate Gained(a: Asset) {
    a.costPrice != 0.0 && a.currentPrice / a.costPrice > 1.5
  }

  /** A holding bought at a non-zero cost that now trades below 0.8 times it. */
  predicate Dropped(a: Asset) {
    a.costPrice != 0.0 && a.currentPrice / a.costPrice < 0.8
  }

  /** The volatility rule for one holding; a zero cost price is skipped. */
  function VolatilityFactor(a: Asset): seq<string> {
    if a.costPrice == 0.0 then []
    else if a.currentPrice / a.costPrice > 1.5 then [a.name + GainMarker]
    else if a.currentPrice / a.costPrice < 0.8 then [a.name + LossMarker]
    else []
  }

  /** What the volatility rule adds to the score for one holding. */
  function VolatilityIncrement(a: Asset): real {
    if a.costPrice == 0.0 then 0.0
    else if a.currentPrice / a.costPrice > 1.5 then 0.1
    else if a.currentPrice / a.costPrice < 0.8 then 0.2
    else 0.0
  }

  function VolatilityFactors(s: seq<Asset>): seq<string> {
    if s == [] then [] else VolatilityFactors(s[..|s| - 1]) + VolatilityFactor(s[|s| - 1])
  }

  function VolatilityScore(s: seq<Asset>): real {
    if s == [] then 0.0 else VolatilityScore(s[..|s| - 1]) + VolatilityIncrement(s[|s| - 1])
  }

  /** The level thresholds of `assess_risk`. */
  function LevelOf(score: real): (level: RiskLevel)
    ensures level == Low <==> score < 0.3
    ensures level == Medium <==> 0.3 <= score < 0.6
    ensures level == High <==> 0.6 <= score
  {
    if score < 0.3 then Low else if score < 0.6 then Medium else High
  }

  /** `any(marker in factor for factor in factors)` */
  predicate AnyContains(factors: seq<string>, marker: string) {
    exists i :: 0 <= i < |factors| && Contains(factors[i], marker)
  }

  /** The position of each suggestion in the fixed order the source emits them. */
  function SuggestionRank(suggestion: string): nat {
    if suggestion == DiversifySuggestion then 0
    else if suggestion == RebalanceSuggestion then 1
    else if suggestion == TakeProfitSuggestion then 2
    else if suggestion == StopLossSuggestion then 3
    else 4
  }

  /** The suggestions `assess_risk` derives by matching the factor texts, in
      the fixed order. */
  function SuggestionsFor(factors: seq<string>): seq<string> {
    (if ConcentrationFactor in factors then [DiversifySuggestion] else [])
      + (if AnyContains(factors, DominanceMarker) then [RebalanceSuggestion] else [])
      + (if AnyContains(factors, GainMarker) then [TakeProfitSuggestion] else [])
      + (if AnyContains(factors, LossMarker) then [StopLossSuggestion] else [])
  }

  /** Each suggestion is present exactly when its factor matched, so there are
      at most four. */
  lemma {:induction false} SuggestionsMatch(factors: seq<string>)
    ensures |SuggestionsFor(factors)| <= 4
    ensures DiversifySuggestion in SuggestionsFor(factors) <==> ConcentrationFactor in factors
    ensures RebalanceSuggestion in SuggestionsFor(factors) <==> AnyContains(factors, DominanceMarker)
    ensures TakeProfitSuggestion in SuggestionsFor(factors) <==> AnyContains(factors, GainMarker)
    ensures StopLossSuggestion in SuggestionsFor(factors) <==> AnyContains(factors, LossMarker)
  {
    SuggestionRanks();
    var a: seq<string> := if ConcentrationFactor in factors then [DiversifySuggestion] else [];
    var b: seq<string> := if AnyContains(factors, DominanceMarker) then [RebalanceSuggestion] else [];
    var c: seq<string> := if AnyContains(factors, GainMarker) then [TakeProfitSuggestion] else [];
    var d: seq<string> := if AnyContains(factors, LossMarker) then [StopLossSuggestion] else [];
    assert SuggestionsFor(factors) == a + b + c + d;
    forall x ensures x in a + b + c + d <==> x in a || x in b || x in c || x in d {
    }
  }

  /** The four suggestion texts are different, so their ranks are 0 to 3. */
  lemma SuggestionRanks()
    ensures SuggestionRank(DiversifySuggestion) == 0 && SuggestionRank(RebalanceSuggestion) == 1
    ensures SuggestionRank(TakeProfitSuggestion) == 2 && SuggestionRank(StopLossSuggestion) == 3
  {
    assert DiversifySuggestion[2] != RebalanceSuggestion[2];
    assert DiversifySuggestion[2] != TakeProfitSuggestion[2] && RebalanceSuggestion[2] != TakeProfitSuggestion[2];
    assert DiversifySuggestion[2] != StopLossSuggestion[2] && RebalanceSuggestion[2] != StopLossSuggestion[2];
    assert TakeProfitSuggestion[2] != StopLossSuggestion[2];
  }

  /** Ranks strictly increase along `r` and stay below 4. */
  ghost predicate RankOrdered(r: seq<string>) {
    forall i, j :: 0 <= i < j < |r| ==> SuggestionRank(r[i]) < SuggestionRank(r[j]) < 4
  }

  ghost predicate RanksBelow(r: seq<string>, n: nat) {
    forall i :: 0 <= i < |r| ==> SuggestionRank(r[i]) < n
  }

  /** Appending a suggestion ranked after all others keeps the order. */
  lemma {:induction false} AppendRanked(r: seq<string>, x: string, n: nat)
    requires RankOrdered(r) && RanksBelow(r, n) && n <= SuggestionRank(x) < 4
    ensures RankOrdered(r + [x]) && RanksBelow(r + [x], SuggestionRank(x) + 1)
  {
  }

  /** The suggestions come in the fixed order, each at most once. */
  lemma {:induction false} SuggestionsOrdered(factors: seq<string>)
    ensures RankOrdered(SuggestionsFor(factors))
  {
    SuggestionRanks();
    var a: seq<string> := if ConcentrationFactor in factors then [DiversifySuggestion] else [];
    assert RankOrdered(a) && RanksBelow(a, 1);
    var b := a + (if AnyContains(factors, DominanceMarker) then [RebalanceSuggestion] else []);
    if AnyContains(factors, DominanceMarker) {
      AppendRanked(a, RebalanceSuggestion, 1);
    } else {
      assert b == a;
    }
    var c := b + (if AnyContains(factors, GainMarker) then [TakeProfitSuggestion] else []);
    if AnyContains(factors, GainMarker) {
      AppendRanked(b, TakeProfitSuggestion, 2);
    } else {
      assert c == b;
    }
    var d := c + (if AnyContains(factors, LossMarker) then [StopLossSuggestion] else []);
    if AnyContains(factors, LossMarker) {
      AppendRanked(c, StopLossSuggestion, 3);
    } else {
      assert d == c;
    }
    assert d == SuggestionsFor(factors);
  }

  /** What `assess_risk` computes, rule by rule: the concentration rule, the
      dominance rule over the category dict, the volatility rule over the
      holdings, the level of the summed score and the suggestions matched
      from the factor texts. */
  function Assess(s: seq<Asset>, now: int): (r: RiskAssessment)
    ensures r.riskLevel == LevelOf(r.riskScore)
    ensures r.assessmentDate == now
    ensures TotalValue(s) == 0.0 ==>
      r.riskScore == 0.0 && r.riskLevel == Low && r.riskFactors == [EmptyFactor] && r.suggestions == [EmptySuggestion]
  {
    var total := TotalValue(s);
    if total == 0.0 then RiskAssessment(0.0, Low, [EmptyFactor], [EmptySuggestion], now)
    else
      var categories := CategoryTotals(s);
      var concentrated := |categories| < 3;
      var dominance := DominanceFactors(categories, total);
      var factors := (if concentrated then [ConcentrationFactor] else []) + dominance + VolatilityFactors(s);
      var score := (if concentrated then 0.3 else 0.0) + 0.2 * |dominance| as real + VolatilityScore(s);
      RiskAssessment(score, LevelOf(score), factors, SuggestionsFor(factors), now)
  }

  /** One step of the category loop extends the dict of the prefix. */
  lemma {:induction false} CategoryTotalsStep(s: seq<Asset>, i: nat, d: seq<Entry>)
    requires i < |s| && d == CategoryTotals(s[..i])
    ensures Put(d, s[i].category, Get(d, s[i].category, 0.0) + MarketValue(s[i])) == CategoryTotals(s[..i + 1])
  {
    var t := s[..i + 1];
    assert t[..|t| - 1] == s[..i];
    assert t[|t| - 1] == s[i];
  }

  /** The first loop of `assess_risk`: market value summed per category. */
  method SumByCategory(assets: seq<Asset>) returns (categories: seq<Entry>)
    ensures categories == CategoryTotals(assets)
  {
    categories := [];
    var i := 0;
    while i < |assets|
      invariant 0 <= i <= |assets|
      invariant categories == CategoryTotals(assets[..i])
    {
      var a := assets[i];
      CategoryTotalsStep(assets, i, categories);
      categories := Put(categories, a.category, Get(categories, a.category, 0.0) + MarketValue(a));
      i := i + 1;
    }
    assert assets[..i] == assets;
  }

  /** The dominance loop of `assess_risk`, continuing from `score0` and
      `factors0`. */
  method ApplyDominanceRule(categories: seq<Entry>, total: real, score0: real, factors0: seq<string>)
    returns (score: real, factors: seq<string>)
    requires total != 0.0
    ensures factors == factors0 + DominanceFactors(categories, total)
    ensures score == score0 + 0.2 * |DominanceFactors(categories, total)| as real
  {
    score, factors := score0, factors0;
    var j := 0;
    while j < |categories|
      invariant 0 <= j <= |categories|
      invariant factors == factors0 + DominanceFactors(categories[..j], total)
      invariant score == score0 + 0.2 * |DominanceFactors(categories[..j], total)| as real
    {
      var e := categories[j];
      assert categories[..j + 1][..j] == categories[..j];
      if e.val / total > 0.5 {
        score := score + 0.2;
        factors := factors + [e.key + DominanceMarker];
      }
      j := j + 1;
    }
    assert categories[..j] == categories;
  }

  /** The volatility loop of `assess_risk`, continuing from `score0` and
      `factors0`. */
  method ApplyVolatilityRule(assets: seq<Asset>, score0: real, factors0: seq<string>)
    returns (score: real, factors: seq<string>)
    ensures factors == factors0 + VolatilityFactors(assets)
    ensures score == score0 + VolatilityScore(assets)
  {
    score, factors := score0, factors0;
    var i := 0;
    while i < |assets|
      invariant 0 <= i <= |assets|
      invariant factors == factors0 + VolatilityFactors(assets[..i])
      invariant score == score0 + VolatilityScore(assets[..i])
    {
      var a := assets[i];
      assert assets[..i + 1][..i] == assets[..i];
      if a.costPrice != 0.0 {
        if a.currentPrice / a.costPrice > 1.5 {
          score := score + 0.1;
          factors := factors + [a.name + GainMarker];
        } else if a.currentPrice / a.costPrice < 0.8 {
          score := score + 0.2;
          factors := factors + [a.name + LossMarker];
        }
      }
      i := i + 1;
    }
    assert assets[..i] == assets;
  }

  /** The suggestion step of `assess_risk`. */
  method MatchSuggestions(factors: seq<string>) returns (suggestions: seq<string>)
    ensures suggestions == SuggestionsFor(factors)
  {
    var diversify := ConcentrationFactor in factors;
    var rebalance := AnyContains(factors, DominanceMarker);
    var takeProfit := AnyContains(factors, GainMarker);
    var stopLoss := AnyContains(factors, LossMarker);
    suggestions := [];
    if diversify {
      suggestions := suggestions + [DiversifySuggestion];
    }
    ghost var a := suggestions;
    assert a == if diversify then [DiversifySuggestion] else [];
    if rebalance {
      suggestions := suggestions + [RebalanceSuggestion];
    }
    assert suggestions == a + (if rebalance then [RebalanceSuggestion] else []);
    ghost var b := suggestions;
    if takeProfit {
      suggestions := suggestions + [TakeProfitSuggestion];
    }
    assert suggestions == b + (if takeProfit then [TakeProfitSuggestion] else []);
    ghost var c := suggestions;
    if stopLoss {
      suggestions := suggestions + [StopLossSuggestion];
    }
    assert suggestions == c + (if stopLoss then [StopLossSuggestion] else []);
  }

  /** `assess_risk`: the empty-portfolio answer, or the three rules applied in
      order, the level of the summed score and the matched suggestions. */
  method AssessRisk(assets: seq<Asset>, now: int) returns (r: RiskAssessment)
    ensures r == Assess(assets, now)
  {
    var total := TotalValue(assets);
    if total == 0.0 {
      return RiskAssessment(0.0, Low, [EmptyFactor], [EmptySuggestion], now);
    }
    var categories := SumByCategory(assets);

    var score := 0.0;
    var factors: seq<string> := [];
    if |categories| < 3 {
      score := score + 0.3;
      factors := factors + [ConcentrationFactor];
    }
    assert factors == if |categories| < 3 then [ConcentrationFactor] else [];
    score, factors := ApplyDominanceRule(categories, total, score, factors);
    score, factors := ApplyVolatilityRule(assets, score, factors);
    ghost var spec := Assess(assets, now);
    assert factors == spec.riskFactors && score == spec.riskScore;

    var level;
    if score < 0.3 {
      level := Low;
    } else if score < 0.6 {
      level := Medium;
    } else {
      level := High;
    }

    var suggestions := MatchSuggestions(factors);
    r := RiskAssessment(score, level, factors, suggestions, now);
  }

  // ----- what the assessment rules mean -----

  /** The categories present, as a set. */
  function Categories(s: seq<Asset>): set<string> {
    set a | a in s :: a.category
  }

  /** The number of categories present is the size of the category dict. */
  lemma {:induction false} CategoryCount(s: seq<Asset>)
    ensures |Categories(s)| == |CategoryTotals(s)|
  {
    var d := CategoryTotals(s);
    CategoryTotalsDistinct(s);
    CategoryTotalsKeys(s);
    KeySetSeq(d);
    KeySetSize(d);
    forall c ensures c in Categories(s) <==> c in KeySet(d) {
      assert c in Categories(s) <==> HasCategory(s, c);
    }
    assert Categories(s) == KeySet(d);
  }

  /** The text contains none of the three markers the suggestions look for. */
  predicate NoMarkers(t: string) {
    !Contains(t, DominanceMarker) && !Contains(t, GainMarker) && !Contains(t, LossMarker)
  }

  ghost predicate DominanceText(x: string) {
    Contains(x, DominanceMarker) && !Contains(x, GainMarker) && !Contains(x, LossMarker) && x != ConcentrationFactor
  }

  ghost predicate GainText(x: string) {
    !Contains(x, DominanceMarker) && Contains(x, GainMarker) && !Contains(x, LossMarker) && x != ConcentrationFactor
  }

  ghost predicate LossText(x: string) {
    !Contains(x, DominanceMarker) && !Contains(x, GainMarker) && Contains(x, LossMarker) && x != ConcentrationFactor
  }

  /** The concentration factor contains no marker. */
  lemma ConcentrationText()
    ensures NoMarkers(ConcentrationFactor)
  {
    MissingFirstChar(ConcentrationFactor, DominanceMarker);
    MissingFirstChar(ConcentrationFactor, GainMarker);
    MissingFirstChar(ConcentrationFactor, LossMarker);
  }

  /** A marker-free name or category followed by a marker contains that marker
      and no other, and is not the concentration factor. */
  lemma {:induction false} TaggedText(x: string)
    requires NoMarkers(x)
    ensures DominanceText(x + DominanceMarker)
    ensures GainText(x + GainMarker)
    ensures LossText(x + LossMarker)
  {
    DominanceTagged(x);
    GainTagged(x);
    LossTagged(x);
  }

  lemma {:induction false} DominanceTagged(x: string)
    requires NoMarkers(x)
    ensures DominanceText(x + DominanceMarker)
  {
    var cf := ConcentrationFactor;
    ContainsSuffix(x, DominanceMarker);
    ContainsAppend(x, DominanceMarker, GainMarker);
    ContainsAppend(x, DominanceMarker, LossMarker);
    MissingFirstChar(DominanceMarker, GainMarker);
    MissingFirstChar(DominanceMarker, LossMarker);
    assert |x + DominanceMarker| == |cf| ==> (x + DominanceMarker)[|cf| - 1] == DominanceMarker[3] != cf[|cf| - 1];
  }

  lemma {:induction false} GainTagged(x: string)
    requires NoMarkers(x)
    ensures GainText(x + GainMarker)
  {
    var cf := ConcentrationFactor;
    ContainsSuffix(x, GainMarker);
    ContainsAppend(x, GainMarker, DominanceMarker);
    ContainsAppend(x, GainMarker, LossMarker);
    MissingFirstChar(GainMarker, DominanceMarker);
    MissingFirstChar(GainMarker, LossMarker);
    assert |x + GainMarker| == |cf| ==> (x + GainMarker)[|cf| - 1] == GainMarker[3] != cf[|cf| - 1];
  }

  lemma {:induction false} LossTagged(x: string)
    requires NoMarkers(x)
    ensures LossText(x + LossMarker)
  {
    var cf := ConcentrationFactor;
    ContainsSuffix(x, LossMarker);
    ContainsAppend(x, LossMarker, DominanceMarker);
    ContainsAppend(x, LossMarker, GainMarker);
    MissingFirstChar(LossMarker, DominanceMarker);
    MissingFirstChar(LossMarker, GainMarker);
    assert |x + LossMarker| == |cf| ==> (x + LossMarker)[|cf| - 1] == LossMarker[3] != cf[|cf| - 1];
  }

  /** A factor list matches a marker exactly when one of its parts does. */
  lemma {:induction false} AnyContainsAppend(a: seq<string>, b: seq<string>, m: string)
    ensures AnyContains(a + b, m) <==> AnyContains(a, m) || AnyContains(b, m)
  {
    if AnyContains(a + b, m) {
      var i :| 0 <= i < |a + b| && Contains((a + b)[i], m);
      if i < |a| {
        assert (a + b)[i] == a[i];
      } else {
        assert (a + b)[i] == b[i - |a|];
      }
    }
    if AnyContains(a, m) {
      var i :| 0 <= i < |a| && Contains(a[i], m);
      assert (a + b)[i] == a[i];
    }
    if AnyContains(b, m) {
      var i :| 0 <= i < |b| && Contains(b[i], m);
      assert (a + b)[|a| + i] == b[i];
    }
  }

  /** Over marker-free keys, every dominance factor is a dominance text. */
  lemma {:induction false} DominanceFactorsKinds(d: seq<Entry>, total: real)
    requires total != 0.0
    requires forall i :: 0 <= i < |d| ==> NoMarkers(d[i].key)
    ensures forall i :: 0 <= i < |DominanceFactors(d, total)| ==> DominanceText(DominanceFactors(d, total)[i])
  {
    if d != [] {
      var init := d[..|d| - 1];
      DominanceFactorsKinds(init, total);
      TaggedText(d[|d| - 1].key);
    }
  }

  /** The dominance rule fires exactly when some entry holds more than half of
      the total. */
  lemma {:induction false} DominanceFactorsFire(d: seq<Entry>, total: real)
    requires total != 0.0
    ensures |DominanceFactors(d, total)| > 0 <==> exists i :: 0 <= i < |d| && d[i].val / total > 0.5
  {
    if d != [] {
      var init := d[..|d| - 1];
      DominanceFactorsFire(init, total);
      if exists i :: 0 <= i < |init| && init[i].val / total > 0.5 {
        var i :| 0 <= i < |init| && init[i].val / total > 0.5;
        assert d[i] == init[i];
      }
      if exists i :: 0 <= i < |d| && d[i].val / total > 0.5 {
        var i :| 0 <= i < |d| && d[i].val / total > 0.5;
        if i < |init| {
          assert init[i] == d[i];
        }
      }
    }
  }

  /** Over marker-free names, the volatility factors match the gain marker
      exactly when some holding gained. */
  lemma {:induction false} VolatilityGainMatch(s: seq<Asset>)
    requires forall i :: 0 <= i < |s| ==> NoMarkers(s[i].name)
    ensures AnyContains(VolatilityFactors(s), GainMarker) <==> exists i :: 0 <= i < |s| && Gained(s[i])
  {
    if s != [] {
      var init, a := s[..|s| - 1], s[|s| - 1];
      VolatilityGainMatch(init);
      TaggedText(a.name);
      var g := VolatilityFactor(a);
      AnyContainsAppend(VolatilityFactors(init), g, GainMarker);
      assert forall i :: 0 <= i < |init| ==> init[i] == s[i];
      assert AnyContains(g, GainMarker) <==> Gained(a) by {
        if g != [] {
          assert g[0] == a.name + GainMarker || g[0] == a.name + LossMarker;
        }
      }
    }
  }

  /** Over marker-free names, the volatility factors match the loss marker
      exactly when some holding dropped. */
  lemma {:induction false} VolatilityLossMatch(s: seq<Asset>)
    requires forall i :: 0 <= i < |s| ==> NoMarkers(s[i].name)
    ensures AnyContains(VolatilityFactors(s), LossMarker) <==> exists i :: 0 <= i < |s| && Dropped(s[i])
  {
    if s != [] {
      var init, a := s[..|s| - 1], s[|s| - 1];
      VolatilityLossMatch(init);
      TaggedText(a.name);
      var g := VolatilityFactor(a);
      AnyContainsAppend(VolatilityFactors(init), g, LossMarker);
      assert forall i :: 0 <= i < |init| ==> init[i] == s[i];
      assert AnyContains(g, LossMarker) <==> Dropped(a) by {
        if g != [] {
          assert g[0] == a.name + GainMarker || g[0] == a.name + LossMarker;
        }
      }
    }
  }

  /** Over marker-free names, every volatility factor is a gain or a loss text. */
  lemma {:induction false} VolatilityFactorsKinds(s: seq<Asset>)
    requires forall i :: 0 <= i < |s| ==> NoMarkers(s[i].name)
    ensures forall i :: 0 <= i < |VolatilityFactors(s)| ==>
      GainText(VolatilityFactors(s)[i]) || LossText(VolatilityFactors(s)[i])
  {
    if s != [] {
      var init, a := s[..|s| - 1], s[|s| - 1];
      assert forall i :: 0 <= i < |init| ==> init[i] == s[i];
      VolatilityFactorsKinds(init);
      TaggedText(a.name);
      var p, q := VolatilityFactors(init), VolatilityFactor(a);
      assert VolatilityFactors(s) == p + q;
      forall i | 0 <= i < |p + q| ensures GainText((p + q)[i]) || LossText((p + q)[i]) {
        if i < |p| {
          assert (p + q)[i] == p[i];
        } else {
          assert (p + q)[i] == q[i - |p|];
        }
      }
    }
  }

  /** Over marker-free names, no volatility factor matches the dominance
      marker or is the concentration factor. */
  lemma {:induction false} VolatilityOthers(s: seq<Asset>)
    requires forall i :: 0 <= i < |s| ==> NoMarkers(s[i].name)
    ensures !AnyContains(VolatilityFactors(s), DominanceMarker)
    ensures ConcentrationFactor !in VolatilityFactors(s)
  {
    VolatilityFactorsKinds(s);
  }

  /** Over marker-free names and categories, a category holding more than
      half of the total is reported exactly when one exists among the
      holdings' categories. */
  lemma {:induction false} RebalanceFires(s: seq<Asset>)
    requires TotalValue(s) != 0.0
    ensures |DominanceFactors(CategoryTotals(s), TotalValue(s))| > 0
        <==> exists j :: 0 <= j < |s| && CategoryValue(s, s[j].category) / TotalValue(s) > 0.5
  {
    var d, t := CategoryTotals(s), TotalValue(s);
    CategoryTotalsDistinct(s);
    CategoryTotalsKeys(s);
    DominanceFactorsFire(d, t);
    var ks := KeySeq(d);
    if exists i :: 0 <= i < |d| && d[i].val / t > 0.5 {
      var i :| 0 <= i < |d| && d[i].val / t > 0.5;
      GetAt(d, i, 0.0);
      CategoryTotalsGet(s, d[i].key);
      assert ks[i] == d[i].key;
      assert HasCategory(s, d[i].key);
      var a :| a in s && a.category == d[i].key;
      var j :| 0 <= j < |s| && s[j] == a;
      assert CategoryValue(s, s[j].category) / t > 0.5;
    }
    if exists j :: 0 <= j < |s| && CategoryValue(s, s[j].category) / t > 0.5 {
      var j :| 0 <= j < |s| && CategoryValue(s, s[j].category) / t > 0.5;
      assert HasCategory(s, s[j].category) by {
        assert s[j] in s;
      }
      var i :| 0 <= i < |ks| && ks[i] == s[j].category;
      GetAt(d, i, 0.0);
      CategoryTotalsGet(s, s[j].category);
      assert d[i].val / t > 0.5;
    }
  }

  /** Over marker-free categories, every key of the category dict is marker-free. */
  lemma {:induction false} CategoryKeysNoMarkers(s: seq<Asset>)
    requires forall i :: 0 <= i < |s| ==> NoMarkers(s[i].category)
    ensures forall i :: 0 <= i < |CategoryTotals(s)| ==> NoMarkers(CategoryTotals(s)[i].key)
  {
    var d := CategoryTotals(s);
    CategoryTotalsKeys(s);
    var ks := KeySeq(d);
    forall i | 0 <= i < |d| ensures NoMarkers(d[i].key) {
      assert ks[i] == d[i].key;
      assert d[i].key in ks;
      assert HasCategory(s, d[i].key);
      var a :| a in s && a.category == d[i].key;
      var j :| 0 <= j < |s| && s[j] == a;
    }
  }

  /** Over marker-free keys, the dominance factors match the dominance marker
      exactly when there is one, and match nothing else. */
  lemma {:induction false} DominanceMatch(d: seq<Entry>, total: real)
    requires total != 0.0
    requires forall i :: 0 <= i < |d| ==> NoMarkers(d[i].key)
    ensures AnyContains(DominanceFactors(d, total), DominanceMarker) <==> DominanceFactors(d, total) != []
    ensures !AnyContains(DominanceFactors(d, total), GainMarker)
    ensures !AnyContains(DominanceFactors(d, total), LossMarker)
    ensures ConcentrationFactor !in DominanceFactors(d, total)
  {
    var dom := DominanceFactors(d, total);
    DominanceFactorsKinds(d, total);
    if dom != [] {
      assert DominanceText(dom[0]);
    }
  }

  /** How the three groups of factors combine under text matching, when each
      group matches only its own marker. */
  lemma {:induction false} FactorsMatch(conc: seq<string>, dom: seq<string>, vol: seq<string>)
    requires conc == [] || conc == [ConcentrationFactor]
    requires !AnyContains(dom, GainMarker) && !AnyContains(dom, LossMarker) && ConcentrationFactor !in dom
    requires !AnyContains(vol, DominanceMarker) && ConcentrationFactor !in vol
    ensures ConcentrationFactor in conc + dom + vol <==> conc != []
    ensures AnyContains(conc + dom + vol, DominanceMarker) <==> AnyContains(dom, DominanceMarker)
    ensures AnyContains(conc + dom + vol, GainMarker) <==> AnyContains(vol, GainMarker)
    ensures AnyContains(conc + dom + vol, LossMarker) <==> AnyContains(vol, LossMarker)
  {
    ConcentrationText();
    assert !AnyContains(conc, DominanceMarker) && !AnyContains(conc, GainMarker) && !AnyContains(conc, LossMarker);
    AnyContainsAppend(conc, dom, DominanceMarker);
    AnyContainsAppend(conc, dom, GainMarker);
    AnyContainsAppend(conc, dom, LossMarker);
    AnyContainsAppend(conc + dom, vol, DominanceMarker);
    AnyContainsAppend(conc + dom, vol, GainMarker);
    AnyContainsAppend(conc + dom, vol, LossMarker);
  }

  /** When no holding's name or category contains one of the markers, each
      suggestion of the assessment appears exactly when its rule fired on the
      holdings themselves: fewer than three categories, a category above half
      of the value, a holding up by more than half, a holding down by more
      than a fifth. */
  lemma {:induction false} AssessMatchesRules(s: seq<Asset>, now: int)
    requires TotalValue(s) != 0.0
    requires forall i :: 0 <= i < |s| ==> NoMarkers(s[i].name) && NoMarkers(s[i].category)
    ensures DiversifySuggestion in Assess(s, now).suggestions <==> |Categories(s)| < 3
    ensures RebalanceSuggestion in Assess(s, now).suggestions
        <==> exists j :: 0 <= j < |s| && CategoryValue(s, s[j].category) / TotalValue(s) > 0.5
    ensures TakeProfitSuggestion in Assess(s, now).suggestions <==> exists j :: 0 <= j < |s| && Gained(s[j])
    ensures StopLossSuggestion in Assess(s, now).suggestions <==> exists j :: 0 <= j < |s| && Dropped(s[j])
  {
    var d, t := CategoryTotals(s), TotalValue(s);
    var conc := if |d| < 3 then [ConcentrationFactor] else [];
    var dom, vol := DominanceFactors(d, t), VolatilityFactors(s);
    assert Assess(s, now).suggestions == SuggestionsFor(conc + dom + vol);
    SuggestionsMatch(conc + dom + vol);
    CategoryCount(s);
    CategoryKeysNoMarkers(s);
    DominanceMatch(d, t);
    RebalanceFires(s);
    VolatilityGainMatch(s);
    VolatilityLossMatch(s);
    VolatilityOthers(s);
    FactorsMatch(conc, dom, vol);
  }

  // ----- what the assessment score is made of -----

  /** The number of holdings the volatility rule treats as a gain. */
  function CountGained(s: seq<Asset>): nat {
    if s == [] then 0 else CountGained(s[..|s| - 1]) + (if Gained(s[|s| - 1]) then 1 else 0)
  }

  /** The number of holdings the volatility rule treats as a loss. */
  function CountDropped(s: seq<Asset>): nat {
    if s == [] then 0 else CountDropped(s[..|s| - 1]) + (if Dropped(s[|s| - 1]) then 1 else 0)
  }

  /** The volatility rule adds 0.1 per gain and 0.2 per loss and one factor
      for each; no holding is both, and one with a zero cost is neither. */
  lemma {:induction false} VolatilityCounts(s: seq<Asset>)
    ensures VolatilityScore(s) == 0.1 * CountGained(s) as real + 0.2 * CountDropped(s) as real
    ensures |VolatilityFactors(s)| == CountGained(s) + CountDropped(s) <= |s|
  {
    if s != [] {
      VolatilityCounts(s[..|s| - 1]);
    }
  }

  lemma DivAboveHalf(a: real, t: real)
    requires t > 0.0 && a / t > 0.5
    ensures a > 0.5 * t
  {
  }

  /** With non-negative values, one entry above half of `t` puts the sum above
      half of `t`, and two put it above `t`. */
  lemma {:induction false} DominanceMass(d: seq<Entry>, t: real)
    requires t > 0.0
    requires forall i :: 0 <= i < |d| ==> d[i].val >= 0.0
    ensures SumValues(d) >= 0.0
    ensures |DominanceFactors(d, t)| >= 1 ==> SumValues(d) > 0.5 * t
    ensures |DominanceFactors(d, t)| >= 2 ==> SumValues(d) > t
  {
    if d != [] {
      var init, e := d[..|d| - 1], d[|d| - 1];
      DominanceMass(init, t);
      assert d == init + [e];
      SumValuesAppend(init, [e]);
      assert SumValues([e]) == e.val;
      if e.val / t > 0.5 {
        DivAboveHalf(e.val, t);
      }
    }
  }

  /** A holding's category value is never negative when no quantity or price is. */
  lemma {:induction false} CategoryValueNonNegative(s: seq<Asset>, c: string)
    requires forall i :: 0 <= i < |s| ==> NonNegative(s[i])
    ensures CategoryValue(s, c) >= 0.0
  {
    if s != [] {
      CategoryValueNonNegative(s[..|s| - 1], c);
      MarketValueNonNegative(s[|s| - 1]);
    }
  }

  /** For holdings with no negative quantity or price, at most one category
      can hold more than half of a positive total, since the shares add up to
      one. */
  lemma {:induction false} DominanceAtMostOne(s: seq<Asset>)
    requires forall i :: 0 <= i < |s| ==> NonNegative(s[i])
    requires TotalValue(s) > 0.0
    ensures |DominanceFactors(CategoryTotals(s), TotalValue(s))| <= 1
  {
    var d := CategoryTotals(s);
    CategoryTotalsDistinct(s);
    CategoryTotalsSum(s);
    forall i | 0 <= i < |d| ensures d[i].val >= 0.0 {
      GetAt(d, i, 0.0);
      CategoryTotalsGet(s, d[i].key);
      CategoryValueNonNegative(s, d[i].key);
    }
    DominanceMass(d, TotalValue(s));
  }

  /** For holdings with no negative quantity or price and a positive total,
      the assessment score is 0.3 for fewer than three categories, plus 0.2
      if one category holds more than half of the value, plus 0.1 per gain
      and 0.2 per loss; a concentrated portfolio is never rated low. */
  lemma {:induction false} AssessScore(s: seq<Asset>, now: int)
    requires forall i :: 0 <= i < |s| ==> NonNegative(s[i])
    requires TotalValue(s) > 0.0
    ensures Assess(s, now).riskScore ==
      (if |Categories(s)| < 3 then 0.3 else 0.0)
      + (if exists j :: 0 <= j < |s| && CategoryValue(s, s[j].category) / TotalValue(s) > 0.5 then 0.2 else 0.0)
      + 0.1 * CountGained(s) as real + 0.2 * CountDropped(s) as real
    ensures |Categories(s)| < 3 ==> Assess(s, now).riskLevel != Low
  {
    CategoryCount(s);
    DominanceAtMostOne(s);
    RebalanceFires(s);
    VolatilityCounts(s);
  }

  // ----- strategy recommendation -----

  /** How well a tier suits a score: 1 at 0.5, falling off linearly on both
      sides. */
  function Suitability(score: real): (r: real)
    ensures r <= 1.0
    ensures r == 1.0 <==> score == 0.5
  {
    1.0 - Abs(score - 0.5)
  }

  /** Suitability depends only on the distance from 0.5. */
  lemma SuitabilitySymmetric(x: real)
    ensures Suitability(0.5 + x) == Suitability(0.5 - x)
  {
    assert Abs(0.5 + x - 0.5) == Abs(0.5 - x - 0.5);
  }

  /** The three tiers of `recommend_strategy`, chosen by the weighted
      category score. */
  function StrategyFor(score: real, now: int): (r: InvestmentStrategy)
    ensures |r.strategyPoints| == 4
    ensures r.strategyType == Conservative <==> score < 0.3
    ensures r.strategyType == Balanced <==> 0.3 <= score < 0.7
    ensures r.strategyType == Aggressive <==> 0.7 <= score
    ensures r.suitabilityScore == Suitability(score) && r.createdAt == now
    ensures r.expectedReturn == (match r.strategyType
                                 case Conservative => 0.05
                                 case Balanced => 0.08
                                 case Aggressive => 0.12)
    ensures r.riskLevel == (match r.strategyType
                            case Conservative => "低风险"
                            case Balanced => "中风险"
                            case Aggressive => "高风险")
  {
    var suitability := Suitability(score);
    if score < 0.3 then
      InvestmentStrategy(
        Conservative,
        ["以保本为主要目标", "配置高比例固定收益类资产", "少量配置权益类资产", "保持较高流动性"],
        suitability, 0.05, "低风险", now)
    else if score < 0.7 then
      InvestmentStrategy(
        Balanced,
        ["平衡收益与风险", "均衡配置各类资产", "适当配置权益类资产", "保持适度流动性"],
        suitability, 0.08, "中风险", now)
    else
      InvestmentStrategy(
        Aggressive,
        ["追求较高收益", "重点配置权益类资产", "适当配置另类资产", "保持必要流动性"],
        suitability, 0.12, "高风险", now)
  }

  /** A higher score never gets a lower expected return, and the expected
      return is one of 5%, 8% and 12%. */
  lemma {:induction false} ExpectedReturnMonotone(a: real, b: real, now: int)
    requires a <= b
    ensures StrategyFor(a, now).expectedReturn <= StrategyFor(b, now).expectedReturn
    ensures StrategyFor(a, now).expectedReturn in {0.05, 0.08, 0.12}
  {
  }

  /** `recommend_strategy` */
  method RecommendStrategy(assets: seq<Asset>, now: int) returns (r: InvestmentStrategy)
    ensures r == StrategyFor(WeightedRiskScore(assets), now)
    ensures (forall a :: a in assets ==> NonNegative(a)) && TotalValue(assets) > 0.0 ==>
      0.6 <= r.suitabilityScore <= 1.0
  {
    var score := CalculateRiskScore(assets);
    r := StrategyFor(score, now);
  }

  /** The assessment's "high" level starts at 0.6 and the aggressive strategy
      at 0.7, so a score in between is assessed as high risk and still given
      the balanced strategy. */
  lemma BoundaryMismatch(score: real, now: int)
    requires 0.6 <= score < 0.7
    ensures LevelOf(score) == High && StrategyFor(score, now).strategyType == Balanced
  {
  }

  /** The weight table is keyed by the Chinese category names: a single
      holding of 100 units at 20 in a category spelled "stock" gets the
      default weight 0.5, not the 0.8 of "股票". */
  lemma {:induction false} CategorySpelling(now: int)
    ensures var a := Asset("600000", "浦发银行", "stock", 100, 10.0, 20.0, 10.0, now, now);
      TotalValue([a]) == 2000.0 && WeightedRiskScore([a]) == 0.5
    ensures var a := Asset("600000", "浦发银行", "股票", 100, 10.0, 20.0, 10.0, now, now);
      WeightedRiskScore([a]) == 0.8
  {
    var a := Asset("600000", "浦发银行", "stock", 100, 10.0, 20.0, 10.0, now, now);
    var b := a.(category := "股票");
    assert TotalValue([a]) == TotalValue([a][..0]) + MarketValue(a);
    assert TotalValue([b]) == TotalValue([b][..0]) + MarketValue(b);
    SingleCategoryScore([a], "stock");
    SingleCategoryScore([b], "股票");
  }
}
