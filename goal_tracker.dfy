/** `goal_tracker.py`: an ordered list of savings goals, looked up by name
    (the first goal with the name wins), with progress updates, the monthly
    saving a goal still needs, a report, the split of target money over the
    three risk labels, and adjustment suggestions. The clock is the `now`
    parameter, in seconds; one reading stands for every `datetime.now()`. */
module GoalTracking {
  import opened Arithmetic
  import opened Basics
  import opened OrderedDicts
  import opened Models

  const SecondsPerDay := 86400

  // ----- lookup by name -----

  /** The position of the first goal named `name`. */
  function FirstMatch(goals: seq<Goal>, name: string): (r: Option<nat>)
    ensures r.Some? ==> r.value < |goals| && goals[r.value].name == name
    ensures r.Some? ==> forall j :: 0 <= j < r.value ==> goals[j].name != name
    ensures r.None? ==> forall j :: 0 <= j < |goals| ==> goals[j].name != name
  {
    if goals == [] then None
    else if goals[0].name == name then Some(0)
    else
      match FirstMatch(goals[1..], name)
      case None => None
      case Some(i) => Some(i + 1)
  }

  /** `(goal.deadline - now).days`: whole days, rounded down. */
  function RemainingDays(g: Goal, now: int): int {
    (g.deadline - now) / SecondsPerDay
  }

  /** The day count is the floor of the remaining time in days, so it is
      negative exactly when the deadline has passed. */
  lemma RemainingDaysFloor(g: Goal, now: int)
    ensures RemainingDays(g, now) * SecondsPerDay <= g.deadline - now < (RemainingDays(g, now) + 1) * SecondsPerDay
    ensures RemainingDays(g, now) < 0 <==> g.deadline < now
  {
  }

  // ----- progress updates -----

  datatype UpdateOutcome =
    | Updated
    | NoMatch
    /** The source stores the amount, then divides by a zero target and raises. */
    | DivisionByZero

  function Min(a: real, b: real): real {
    if a <= b then a else b
  }

  /** The goal after `update_goal_progress` reached it. A zero target keeps
      the stored amount but raises before the progress is set. */
  function WithAmount(g: Goal, amount: real): Goal {
    var stored := g.(currentAmount := amount);
    if g.targetAmount == 0.0 then stored
    else stored.(progress := Min(amount / g.targetAmount, 1.0))
  }

  /** The goal list after `update_goal_progress(name, amount)`. */
  function UpdatedGoals(goals: seq<Goal>, name: string, amount: real): (r: seq<Goal>)
    ensures |r| == |goals|
    ensures forall j :: 0 <= j < |goals| ==> r[j].name == goals[j].name && r[j].targetAmount == goals[j].targetAmount
  {
    match FirstMatch(goals, name)
    case None => goals
    case Some(i) => goals[i := WithAmount(goals[i], amount)]
  }

  function UpdateOutcomeOf(goals: seq<Goal>, name: string, amount: real): UpdateOutcome {
    match FirstMatch(goals, name)
    case None => NoMatch
    case Some(i) => if goals[i].targetAmount == 0.0 then DivisionByZero else Updated
  }

  /** Only the first goal with the name changes: it gets the amount and, for
      a non-zero target, a progress that is the ratio clamped above at 1;
      its other fields stay. */
  lemma {:induction false} UpdateChangesFirstMatchOnly(goals: seq<Goal>, name: string, amount: real)
    ensures |UpdatedGoals(goals, name, amount)| == |goals|
    ensures forall j :: 0 <= j < |goals| && FirstMatch(goals, name) != Some(j) ==>
      UpdatedGoals(goals, name, amount)[j] == goals[j]
    ensures FirstMatch(goals, name).Some? ==>
      var i := FirstMatch(goals, name).value;
      var g, h := goals[i], UpdatedGoals(goals, name, amount)[i];
      h.currentAmount == amount
      && h.name == g.name && h.targetAmount == g.targetAmount && h.deadline == g.deadline
      && h.riskTolerance == g.riskTolerance && h.createdAt == g.createdAt
      && (g.targetAmount == 0.0 ==> h.progress == g.progress)
      && (g.targetAmount != 0.0 ==> h.progress == Min(amount / g.targetAmount, 1.0))
  {
  }

  /** Names do not change, so the update finds the same goal again, and
      repeating it changes nothing more. */
  lemma {:induction false} UpdateIdempotent(goals: seq<Goal>, name: string, amount: real)
    ensures FirstMatch(UpdatedGoals(goals, name, amount), name) == FirstMatch(goals, name)
    ensures UpdatedGoals(UpdatedGoals(goals, name, amount), name, amount) == UpdatedGoals(goals, name, amount)
  {
    var r := UpdatedGoals(goals, name, amount);
    match FirstMatch(goals, name)
    case None =>
    case Some(i) =>
      assert forall j :: 0 <= j < |r| ==> r[j].name == goals[j].name;
  }

  // ----- reading one goal -----

  /** The dict `get_goal_progress` returns for a goal. */
  datatype GoalProgress = GoalProgress(
    name: string,
    targetAmount: real,
    currentAmount: real,
    progress: real,
    remainingAmount: real,
    daysRemaining: int)

  function ProgressOf(g: Goal, now: int): (p: GoalProgress)
    ensures p.currentAmount + p.remainingAmount == p.targetAmount
  {
    GoalProgress(g.name, g.targetAmount, g.currentAmount, g.progress,
                 g.targetAmount - g.currentAmount, RemainingDays(g, now))
  }

  /** `get_goal_progress`: the first goal with the name, or the empty dict. */
  function LookupProgress(goals: seq<Goal>, name: string, now: int): (r: Option<GoalProgress>)
    ensures r.None? <==> forall j :: 0 <= j < |goals| ==> goals[j].name != name
    ensures r.Some? ==> r.value.name == name
    ensures FirstMatch(goals, name).Some? ==> r == Some(ProgressOf(goals[FirstMatch(goals, name).value], now))
  {
    match FirstMatch(goals, name)
    case None => None
    case Some(i) => Some(ProgressOf(goals[i], now))
  }

  /** After an update that succeeded, reading the goal shows the new amount
      and what is left to save. */
  lemma {:induction false} UpdateThenLookup(goals: seq<Goal>, name: string, amount: real, now: int)
    requires UpdateOutcomeOf(goals, name, amount) == Updated
    ensures LookupProgress(UpdatedGoals(goals, name, amount), name, now).Some?
    ensures LookupProgress(UpdatedGoals(goals, name, amount), name, now).value.currentAmount == amount
    ensures LookupProgress(UpdatedGoals(goals, name, amount), name, now).value.remainingAmount
         == LookupProgress(goals, name, now).value.targetAmount - amount
    ensures LookupProgress(UpdatedGoals(goals, name, amount), name, now).value.progress <= 1.0
  {
    UpdateIdempotent(goals, name, amount);
  }

  // ----- monthly saving -----

  /** What `calculate_monthly_saving` returns for a goal: nothing once the
      deadline is reached, else the missing amount spread over months of 30
      days. */
  function SavingFor(g: Goal, now: int): (r: real)
    ensures RemainingDays(g, now) <= 0 ==> r == 0.0
    ensures RemainingDays(g, now) > 0 ==> r * (RemainingDays(g, now) as real) == 30.0 * (g.targetAmount - g.currentAmount)
    ensures r > 0.0 <==> RemainingDays(g, now) > 0 && g.targetAmount > g.currentAmount
  {
    var days := RemainingDays(g, now);
    if days <= 0 then 0.0
    else
      var months := days as real / 30.0;
      (g.targetAmount - g.currentAmount) / months
  }

  /** `calculate_monthly_saving(name)`: the first goal with the name, or 0. */
  function MonthlySaving(goals: seq<Goal>, name: string, now: int): (r: real)
    ensures FirstMatch(goals, name).None? ==> r == 0.0
    ensures FirstMatch(goals, name).Some? ==> r == SavingFor(goals[FirstMatch(goals, name).value], now)
  {
    match FirstMatch(goals, name)
    case None => 0.0
    case Some(i) => SavingFor(goals[i], now)
  }

  /** One entry of `get_all_goals_progress`. */
  datatype GoalSummary = GoalSummary(info: GoalProgress, monthlySaving: real)

  /** `get_all_goals_progress`: one entry per goal, in order; the saving is
      looked up by the goal's name. */
  function AllGoalsProgress(goals: seq<Goal>, now: int): (r: seq<GoalSummary>)
    ensures |r| == |goals|
  {
    seq(|goals|, i requires 0 <= i < |goals| =>
      GoalSummary(ProgressOf(goals[i], now), MonthlySaving(goals, goals[i].name, now)))
  }

  /** Every entry reports its own goal, but the saving of the first goal that
      has its name; so goals sharing a name share a saving. */
  lemma {:induction false} AllGoalsProgressSavings(goals: seq<Goal>, now: int, i: nat, j: nat)
    requires i < |goals| && j < |goals| && goals[i].name == goals[j].name
    ensures AllGoalsProgress(goals, now)[i].info == ProgressOf(goals[i], now)
    ensures AllGoalsProgress(goals, now)[i].monthlySaving == AllGoalsProgress(goals, now)[j].monthlySaving
    ensures exists k :: 0 <= k <= i && goals[k].name == goals[i].name
                        && AllGoalsProgress(goals, now)[i].monthlySaving == SavingFor(goals[k], now)
  {
    var k := FirstMatch(goals, goals[i].name);
    assert k.Some? && k.value <= i;
  }

  // ----- totals and risk distribution -----

  function TotalTarget(goals: seq<Goal>): real {
    if goals == [] then 0.0 else TotalTarget(goals[..|goals| - 1]) + goals[|goals| - 1].targetAmount
  }

  function TotalCurrent(goals: seq<Goal>): real {
    if goals == [] then 0.0 else TotalCurrent(goals[..|goals| - 1]) + goals[|goals| - 1].currentAmount
  }

  /** The sum of the targets of the goals with one risk label. */
  function TargetWithLabel(goals: seq<Goal>, level: string): real {
    if goals == [] then 0.0
    else
      TargetWithLabel(goals[..|goals| - 1], level)
        + (if goals[|goals| - 1].riskTolerance == level then goals[|goals| - 1].targetAmount else 0.0)
  }

  const Labels: seq<string> := ["保守", "稳健", "激进"]

  /** The dict the distribution starts from: each label at 0. */
  const InitialDistribution: seq<Entry> := [Entry("保守", 0.0), Entry("稳健", 0.0), Entry("激进", 0.0)]

  /** The loop of `_calculate_risk_distribution` over `goals`: each goal adds
      its share of `total` to its label; a label that is not a key raises. */
  function Accumulate(goals: seq<Goal>, total: real): Option<seq<Entry>>
    requires total != 0.0
  {
    if goals == [] then Some(InitialDistribution)
    else
      match Accumulate(goals[..|goals| - 1], total)
      case None => None
      case Some(d) =>
        var g := goals[|goals| - 1];
        if HasKey(d, g.riskTolerance)
        then Some(Put(d, g.riskTolerance, Get(d, g.riskTolerance, 0.0) + g.targetAmount / total))
        else None
  }

  /** `_calculate_risk_distribution`; `None` where the source raises. */
  function Distribution(goals: seq<Goal>): (r: Option<seq<Entry>>)
    ensures r.Some? ==> HasLabels(r.value)
    ensures TotalTarget(goals) == 0.0 ==> r == Some(InitialDistribution)
  {
    var total := TotalTarget(goals);
    if total == 0.0 then InitialKeys(); Some(InitialDistribution)
    else AccumulateKeys(goals, total); Accumulate(goals, total)
  }

  /** One of the three keys of the distribution. */
  predicate IsLabel(x: string) {
    x in Labels
  }

  ghost predicate AllLabelled(goals: seq<Goal>) {
    forall i :: 0 <= i < |goals| ==> IsLabel(goals[i].riskTolerance)
  }

  /** The starting dict has the three labels, in order, each at 0. */
  lemma InitialKeys()
    ensures KeySeq(InitialDistribution) == Labels
    ensures forall level :: Get(InitialDistribution, level, 0.0) == 0.0
  {
    var z := InitialDistribution;
    var ks := KeySeq(z);
    assert ks[0] == "保守" && ks[1] == "稳健" && ks[2] == "激进";
    forall level ensures Get(z, level, 0.0) == 0.0 {
      assert Get(z[1..][1..], level, 0.0) == 0.0;
    }
  }

  /** The dict's keys are the three labels, in order. */
  predicate HasLabels(d: seq<Entry>) {
    KeySeq(d) == Labels
  }

  /** Over a dict keyed by the three labels, a goal's label is a key exactly
      when it is one of the three, and storing under it keeps the keys. */
  lemma {:induction false} LabelStep(d: seq<Entry>, k: string, v: real)
    requires HasLabels(d)
    ensures HasKey(d, k) <==> IsLabel(k)
    ensures IsLabel(k) ==> HasLabels(Put(d, k, v))
  {
    HasKeySeq(d, k);
    PutKeys(d, k, v);
  }

  /** One step of the accumulation over a prefix. */
  lemma {:induction false} AccumulateStep(goals: seq<Goal>, i: nat, total: real, d: seq<Entry>)
    requires total != 0.0 && i < |goals| && Accumulate(goals[..i], total) == Some(d)
    ensures Accumulate(goals[..i + 1], total) ==
      if HasKey(d, goals[i].riskTolerance)
      then Some(Put(d, goals[i].riskTolerance, Get(d, goals[i].riskTolerance, 0.0) + goals[i].targetAmount / total))
      else None
  {
    var t := goals[..i + 1];
    assert t[..|t| - 1] == goals[..i];
    assert t[|t| - 1] == goals[i];
  }

  /** The accumulation succeeds exactly when every goal carries one of the
      three labels, and the dict then has exactly the three labels, in order. */
  lemma {:induction false} AccumulateKeys(goals: seq<Goal>, total: real)
    requires total != 0.0
    ensures Accumulate(goals, total).Some? <==> AllLabelled(goals)
    ensures Accumulate(goals, total).Some? ==> HasLabels(Accumulate(goals, total).value)
  {
    if goals != [] {
      var init, g := goals[..|goals| - 1], goals[|goals| - 1];
      AccumulateKeys(init, total);
      assert forall i :: 0 <= i < |init| ==> init[i] == goals[i];
      if AllLabelled(init) && IsLabel(g.riskTolerance) {
        forall i | 0 <= i < |goals| ensures IsLabel(goals[i].riskTolerance) {
          if i < |init| {
            assert IsLabel(init[i].riskTolerance);
          }
        }
      }
      if Accumulate(init, total).Some? {
        var d := Accumulate(init, total).value;
        var v := Get(d, g.riskTolerance, 0.0) + g.targetAmount / total;
        LabelStep(d, g.riskTolerance, v);
        if IsLabel(g.riskTolerance) {
          assert Accumulate(goals, total) == Some(Put(d, g.riskTolerance, v));
        }
      }
    } else {
      assert Accumulate(goals, total) == Some(InitialDistribution);
      InitialKeys();
    }
  }

  /** When the accumulation succeeds, each label holds its goals' share of
      `total`. */
  lemma {:induction false} AccumulateGet(goals: seq<Goal>, total: real, level: string)
    requires total != 0.0 && Accumulate(goals, total).Some?
    ensures Get(Accumulate(goals, total).value, level, 0.0) == TargetWithLabel(goals, level) / total
  {
    if goals != [] {
      var init, g := goals[..|goals| - 1], goals[|goals| - 1];
      var d := Accumulate(init, total).value;
      AccumulateGet(init, total, level);
      var v := Get(d, g.riskTolerance, 0.0) + g.targetAmount / total;
      PutGet(d, g.riskTolerance, v, level, 0.0);
      AccumulateGet(init, total, g.riskTolerance);
      DivAdd(TargetWithLabel(init, level), g.targetAmount, total);
    } else {
      InitialKeys();
    }
  }

  /** The targets of the three labels add up to the total when every goal is
      labelled. */
  lemma {:induction false} LabelTargetsSum(goals: seq<Goal>)
    requires AllLabelled(goals)
    ensures TargetWithLabel(goals, "保守") + TargetWithLabel(goals, "稳健") + TargetWithLabel(goals, "激进")
         == TotalTarget(goals)
  {
    if goals != [] {
      var init := goals[..|goals| - 1];
      assert AllLabelled(init) by {
        assert forall i :: 0 <= i < |init| ==> init[i] == goals[i];
      }
      LabelTargetsSum(init);
    }
  }

  /** The sum of a dict keyed by the three labels is the sum of their values. */
  lemma LabelledSum(d: seq<Entry>)
    requires HasLabels(d)
    ensures SumValues(d) == Get(d, "保守", 0.0) + Get(d, "稳健", 0.0) + Get(d, "激进", 0.0)
  {
    var ks := KeySeq(d);
    assert |d| == 3 && ks[0] == d[0].key && ks[1] == d[1].key && ks[2] == d[2].key;
    assert DistinctKeys(d);
    GetAt(d, 0, 0.0);
    GetAt(d, 1, 0.0);
    GetAt(d, 2, 0.0);
    assert SumValues(d[2..]) == d[2].val;
    assert SumValues(d[1..]) == d[1].val + SumValues(d[1..][1..]);
  }

  /** The distribution always has the three labels as keys, in order. It is
      all zeros when the targets add up to 0, and fails exactly when the
      targets do not and some goal's label is not one of the three. */
  lemma {:induction false} DistributionKeys(goals: seq<Goal>)
    ensures Distribution(goals).Some? ==> HasLabels(Distribution(goals).value)
    ensures TotalTarget(goals) == 0.0 ==> Distribution(goals) == Some(InitialDistribution)
    ensures Distribution(goals).None? <==> TotalTarget(goals) != 0.0 && !AllLabelled(goals)
  {
    if TotalTarget(goals) != 0.0 {
      AccumulateKeys(goals, TotalTarget(goals));
    } else {
      InitialKeys();
    }
  }

  /** Otherwise each label holds its goals' share of the total target. */
  lemma {:induction false} DistributionShares(goals: seq<Goal>, level: string)
    requires TotalTarget(goals) != 0.0 && Distribution(goals).Some?
    ensures Get(Distribution(goals).value, level, 0.0) == TargetWithLabel(goals, level) / TotalTarget(goals)
  {
    AccumulateGet(goals, TotalTarget(goals), level);
  }

  /** Three parts of a non-zero whole, each divided by it, add up to 1. */
  lemma SharesOfWhole(a: real, b: real, c: real, t: real)
    requires t != 0.0 && a + b + c == t
    ensures a / t + b / t + c / t == 1.0
  {
    DivAdd(a, b, t);
    DivAdd(a + b, c, t);
  }

  /** ... and the shares add up to 1. */
  lemma {:induction false} DistributionSumsToOne(goals: seq<Goal>)
    requires TotalTarget(goals) != 0.0 && Distribution(goals).Some?
    ensures SumValues(Distribution(goals).value) == 1.0
  {
    var d := Distribution(goals).value;
    DistributionKeys(goals);
    LabelledSum(d);
    DistributionShares(goals, "保守");
    DistributionShares(goals, "稳健");
    DistributionShares(goals, "激进");
    LabelTargetsSum(goals);
    SharesOfWhole(TargetWithLabel(goals, "保守"), TargetWithLabel(goals, "稳健"),
      TargetWithLabel(goals, "激进"), TotalTarget(goals));
  }

  // ----- the report -----

  /** The dict `generate_progress_report` returns. */
  datatype ProgressReport = ProgressReport(
    totalGoals: nat,
    totalTargetAmount: real,
    totalCurrentAmount: real,
    totalProgress: real,
    goals: seq<GoalSummary>,
    riskDistribution: seq<Entry>)

  /** `generate_progress_report`; `None` where the distribution raises. */
  function Report(goals: seq<Goal>, now: int): (r: Option<ProgressReport>)
    ensures r.Some? <==> Distribution(goals).Some?
    ensures r.Some? ==>
      r.value.totalGoals == |r.value.goals| == |goals| && r.value.riskDistribution == Distribution(goals).value
  {
    match Distribution(goals)
    case None => None
    case Some(d) =>
      var target, current := TotalTarget(goals), TotalCurrent(goals);
      Some(ProgressReport(|goals|, target, current, if target > 0.0 then current / target else 0.0,
                          AllGoalsProgress(goals, now), d))
  }

  /** Goals whose saved amounts lie between 0 and their targets have saved
      between 0 and the total target. */
  lemma {:induction false} CurrentWithinTarget(goals: seq<Goal>)
    requires forall i :: 0 <= i < |goals| ==> 0.0 <= goals[i].currentAmount <= goals[i].targetAmount
    ensures 0.0 <= TotalCurrent(goals) <= TotalTarget(goals)
  {
    if goals != [] {
      CurrentWithinTarget(goals[..|goals| - 1]);
    }
  }

  /** The report exists exactly when the distribution does; it counts the
      goals, its overall progress is the saved share of a positive total
      target (0 otherwise), and lies in [0, 1] when no goal is over-saved or
      negative. */
  lemma {:induction false} ReportSpec(goals: seq<Goal>, now: int)
    ensures Report(goals, now).Some? <==> Distribution(goals).Some?
    ensures Report(goals, now).Some? ==>
      var r := Report(goals, now).value;
      r.totalGoals == |goals| && |r.goals| == |goals|
      && (TotalTarget(goals) > 0.0 ==> r.totalProgress * TotalTarget(goals) == TotalCurrent(goals))
      && (TotalTarget(goals) <= 0.0 ==> r.totalProgress == 0.0)
    ensures (Report(goals, now).Some? && TotalTarget(goals) > 0.0
             && forall i :: 0 <= i < |goals| ==> 0.0 <= goals[i].currentAmount <= goals[i].targetAmount)
        ==> 0.0 <= Report(goals, now).value.totalProgress <= 1.0
  {
    if TotalTarget(goals) > 0.0 && forall i :: 0 <= i < |goals| ==> 0.0 <= goals[i].currentAmount <= goals[i].targetAmount {
      CurrentWithinTarget(goals);
      DivBetween(TotalCurrent(goals), TotalTarget(goals));
    }
  }

  lemma DivBetween(a: real, t: real)
    requires 0.0 <= a <= t && t > 0.0
    ensures 0.0 <= a / t <= 1.0
  {
  }

  // ----- adjustment suggestions -----

  function ExpiredMessage(name: string): string {
    "目标 '" + name + "' 已过期，建议重新设定截止日期"
  }

  function BurdenMessage(name: string): string {
    "目标 '" + name + "' 每月储蓄金额较高，建议考虑延长完成时间或降低目标金额"
  }

  const AggressiveMessage := "激进型目标占比过高，建议增加稳健型目标以平衡风险"
  const ConservativeMessage := "保守型目标占比过高，可以考虑适当增加收益目标"

  /** What the first loop of `suggest_goal_adjustments` adds for goal `g`; its
      saving is looked up by name in the whole list. */
  function GoalSuggestion(goals: seq<Goal>, g: Goal, now: int): seq<string> {
    if RemainingDays(g, now) < 0 then [ExpiredMessage(g.name)]
    else if MonthlySaving(goals, g.name, now) > g.currentAmount * 0.5 then [BurdenMessage(g.name)]
    else []
  }

  /** The first loop of `suggest_goal_adjustments` over the goals `s`. */
  function GoalSuggestions(goals: seq<Goal>, s: seq<Goal>, now: int): seq<string> {
    if s == [] then [] else GoalSuggestions(goals, s[..|s| - 1], now) + GoalSuggestion(goals, s[|s| - 1], now)
  }

  /** The distribution check of `suggest_goal_adjustments`; the aggressive
      share is checked first. */
  function DistributionSuggestion(d: seq<Entry>): seq<string> {
    if Get(d, "激进", 0.0) > 0.5 then [AggressiveMessage]
    else if Get(d, "保守", 0.0) > 0.7 then [ConservativeMessage]
    else []
  }

  /** `suggest_goal_adjustments`; `None` where the distribution raises. */
  function Adjustments(goals: seq<Goal>, now: int): (r: Option<seq<string>>)
    ensures r.None? <==> Distribution(goals).None?
    ensures r.Some? ==>
      GoalSuggestions(goals, goals, now) <= r.value && |r.value| <= |GoalSuggestions(goals, goals, now)| + 1
  {
    match Distribution(goals)
    case None => None
    case Some(d) => Some(GoalSuggestions(goals, goals, now) + DistributionSuggestion(d))
  }

  /** A goal gets at most one suggestion: the expiry notice exactly when its
      deadline has passed by a whole day, otherwise the burden notice exactly
      when its saving exceeds half of what it holds. */
  lemma {:induction false} GoalSuggestionCases(goals: seq<Goal>, g: Goal, now: int)
    ensures |GoalSuggestion(goals, g, now)| <= 1
    ensures GoalSuggestion(goals, g, now) == [ExpiredMessage(g.name)] <==> RemainingDays(g, now) < 0
    ensures GoalSuggestion(goals, g, now) == [BurdenMessage(g.name)]
        <==> RemainingDays(g, now) >= 0 && MonthlySaving(goals, g.name, now) > g.currentAmount * 0.5
  {
    assert |ExpiredMessage(g.name)| != |BurdenMessage(g.name)|;
  }

  /** A goal that is the first of its name, due today and holding a
      non-negative amount gets no suggestion. */
  lemma {:induction false} DueTodayNoSuggestion(goals: seq<Goal>, i: nat, now: int)
    requires i < |goals| && FirstMatch(goals, goals[i].name) == Some(i)
    requires RemainingDays(goals[i], now) == 0 && goals[i].currentAmount >= 0.0
    ensures GoalSuggestion(goals, goals[i], now) == []
  {
  }

  lemma {:induction false} GoalSuggestionsCount(goals: seq<Goal>, s: seq<Goal>, now: int)
    ensures |GoalSuggestions(goals, s, now)| <= |s|
  {
    if s != [] {
      GoalSuggestionsCount(goals, s[..|s| - 1], now);
      GoalSuggestionCases(goals, s[|s| - 1], now);
    }
  }

  /** At most one distribution notice: the aggressive one when that share is
      above one half, else the conservative one when that share is above 0.7. */
  lemma {:induction false} DistributionSuggestionCases(d: seq<Entry>)
    ensures |DistributionSuggestion(d)| <= 1
    ensures DistributionSuggestion(d) == [AggressiveMessage] <==> Get(d, "激进", 0.0) > 0.5
    ensures DistributionSuggestion(d) == [ConservativeMessage]
        <==> Get(d, "激进", 0.0) <= 0.5 && Get(d, "保守", 0.0) > 0.7
  {
    assert AggressiveMessage[0] != ConservativeMessage[0];
  }

  /** There are at most one suggestion per goal plus one, and the call fails
      exactly when the distribution does. */
  lemma {:induction false} AdjustmentsBound(goals: seq<Goal>, now: int)
    ensures Adjustments(goals, now).None? <==> Distribution(goals).None?
    ensures Adjustments(goals, now).Some? ==> |Adjustments(goals, now).value| <= |goals| + 1
  {
    GoalSuggestionsCount(goals, goals, now);
    if Distribution(goals).Some? {
      DistributionSuggestionCases(Distribution(goals).value);
    }
  }

  // ----- the tracker -----

  /** `GoalTracker`: the goals in the order they were added. */
  class GoalTracker {
    var goals: seq<Goal>

    constructor()
      ensures goals == []
    {
      goals := [];
    }

    /** `add_goal` */
    method AddGoal(g: Goal)
      modifies this
      ensures goals == old(goals) + [g]
    {
      goals := goals + [g];
    }

    /** `update_goal_progress`: the search loop stops at the first goal with
        the name. */
    method UpdateGoalProgress(name: string, amount: real) returns (outcome: UpdateOutcome)
      modifies this
      ensures goals == UpdatedGoals(old(goals), name, amount)
      ensures outcome == UpdateOutcomeOf(old(goals), name, amount)
    {
      var i := 0;
      while i < |goals|
        invariant 0 <= i <= |goals|
        invariant goals == old(goals)
        invariant forall j :: 0 <= j < i ==> goals[j].name != name
      {
        if goals[i].name == name {
          var g := goals[i].(currentAmount := amount);
          if g.targetAmount == 0.0 {
            goals := goals[i := g];
            return DivisionByZero;
          }
          g := g.(progress := Min(amount / g.targetAmount, 1.0));
          goals := goals[i := g];
          return Updated;
        }
        i := i + 1;
      }
      return NoMatch;
    }

    /** `get_goal_progress` */
    method GetGoalProgress(name: string, now: int) returns (r: Option<GoalProgress>)
      ensures r == LookupProgress(goals, name, now)
      ensures r.None? <==> forall j :: 0 <= j < |goals| ==> goals[j].name != name
    {
      var i := 0;
      while i < |goals|
        invariant 0 <= i <= |goals|
        invariant forall j :: 0 <= j < i ==> goals[j].name != name
      {
        var g := goals[i];
        if g.name == name {
          return Some(GoalProgress(g.name, g.targetAmount, g.currentAmount, g.progress,
                                   g.targetAmount - g.currentAmount, RemainingDays(g, now)));
        }
        i := i + 1;
      }
      return None;
    }

    /** `_calculate_risk_distribution` */
    method RiskDistribution() returns (r: Option<seq<Entry>>)
      ensures r == Distribution(goals)
    {
      var distribution := InitialDistribution;
      var total := TotalTarget(goals);
      if total == 0.0 {
        return Some(distribution);
      }
      var i := 0;
      while i < |goals|
        invariant 0 <= i <= |goals|
        invariant Accumulate(goals[..i], total) == Some(distribution)
      {
        var g := goals[i];
        AccumulateStep(goals, i, total, distribution);
        if !HasKey(distribution, g.riskTolerance) {
          AccumulateStaysFailed(goals, i + 1, total);
          return None;
        }
        distribution := Put(distribution, g.riskTolerance, Get(distribution, g.riskTolerance, 0.0) + g.targetAmount / total);
        i := i + 1;
      }
      assert goals[..i] == goals;
      return Some(distribution);
    }

    /** `generate_progress_report` */
    method GenerateProgressReport(now: int) returns (r: Option<ProgressReport>)
      ensures r == Report(goals, now)
    {
      var totalTarget := TotalTarget(goals);
      var totalCurrent := TotalCurrent(goals);
      var totalProgress := if totalTarget > 0.0 then totalCurrent / totalTarget else 0.0;
      var distribution := RiskDistribution();
      if distribution.None? {
        return None;
      }
      r := Some(ProgressReport(|goals|, totalTarget, totalCurrent, totalProgress,
                               AllGoalsProgress(goals, now), distribution.value));
    }

    /** `suggest_goal_adjustments` */
    method SuggestGoalAdjustments(now: int) returns (r: Option<seq<string>>)
      ensures r == Adjustments(goals, now)
    {
      var suggestions: seq<string> := [];
      var i := 0;
      while i < |goals|
        invariant 0 <= i <= |goals|
        invariant suggestions == GoalSuggestions(goals, goals[..i], now)
      {
        var g := goals[i];
        assert goals[..i + 1][..i] == goals[..i];
        var remainingDays := RemainingDays(g, now);
        var monthlySaving := MonthlySaving(goals, g.name, now);
        if remainingDays < 0 {
          suggestions := suggestions + [ExpiredMessage(g.name)];
        } else if monthlySaving > g.currentAmount * 0.5 {
          suggestions := suggestions + [BurdenMessage(g.name)];
        }
        assert suggestions == GoalSuggestions(goals, goals[..i], now) + GoalSuggestion(goals, g, now);
        i := i + 1;
      }
      assert goals[..i] == goals;
      var distribution := RiskDistribution();
      if distribution.None? {
        return None;
      }
      var d := distribution.value;
      var extra: seq<string> := [];
      if Get(d, "激进", 0.0) > 0.5 {
        extra := [AggressiveMessage];
      } else if Get(d, "保守", 0.0) > 0.7 {
        extra := [ConservativeMessage];
      }
      assert extra == DistributionSuggestion(d);
      r := Some(suggestions + extra);
    }
  }

  /** Once the accumulation over a prefix fails, it fails over the whole list. */
  lemma {:induction false} AccumulateStaysFailed(goals: seq<Goal>, i: nat, total: real)
    requires total != 0.0 && i <= |goals| && Accumulate(goals[..i], total).None?
    ensures Accumulate(goals, total).None?
    decreases |goals| - i
  {
    if i < |goals| {
      var t := goals[..i + 1];
      assert t[..|t| - 1] == goals[..i];
      AccumulateStaysFailed(goals, i + 1, total);
    } else {
      assert goals[..i] == goals;
    }
  }
}
