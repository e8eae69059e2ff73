/** The rule-based insight list of the insights page: an always-present daily
    average followed by up to seven items chosen by thresholds on the
    expense/income ratio and on the ranking of category names by spending. */
module Insights {
  import opened Records
  import opened Sums
  import opened Buckets
  import opened Ranking

  /** One insight card, with the numbers its description is formatted from.
      Percentages are ratios times 100, before `toFixed`. */
  datatype Insight =
    | DailyAverage(perDay: real)
    | TopCategory(name: string, amount: real)
    | OverspendingAlert(percent: real)
    | GreatSavings(percent: real)
    | ModerateSpending(percent: real)
    | CategoryGap(top: string, second: string, percentHigher: Option<real>)
    | SuggestedAction(name: string, percent: real)
    | WeeklyTip(name: string, limit: real)
    | SavingsGoal(saveable: real)
    | SpendingAlert(name: string)

  /** Which card an insight is; each kind has one title and one tone. */
  datatype Kind =
    | DailyAverageCard | TopCategoryCard | OverspendingAlertCard | GreatSavingsCard
    | ModerateSpendingCard | CategoryGapCard | SuggestedActionCard | WeeklyTipCard
    | SavingsGoalCard | SpendingAlertCard

  function KindOf(x: Insight): Kind {
    match x
    case DailyAverage(_) => DailyAverageCard
    case TopCategory(_, _) => TopCategoryCard
    case OverspendingAlert(_) => OverspendingAlertCard
    case GreatSavings(_) => GreatSavingsCard
    case ModerateSpending(_) => ModerateSpendingCard
    case CategoryGap(_, _, _) => CategoryGapCard
    case SuggestedAction(_, _) => SuggestedActionCard
    case WeeklyTip(_, _) => WeeklyTipCard
    case SavingsGoal(_) => SavingsGoalCard
    case SpendingAlert(_) => SpendingAlertCard
  }

  function Title(k: Kind): string {
    match k
    case DailyAverageCard => "Daily Average"
    case TopCategoryCard => "Top Category"
    case OverspendingAlertCard => "Overspending Alert"
    case GreatSavingsCard => "Great Savings"
    case ModerateSpendingCard => "Moderate Spending"
    case CategoryGapCard => "Category Gap"
    case SuggestedActionCard => "Suggested Action"
    case WeeklyTipCard => "Weekly Tip"
    case SavingsGoalCard => "Savings Goal"
    case SpendingAlertCard => "Spending Alert"
  }

  function ToneOf(k: Kind): Tone {
    match k
    case DailyAverageCard => Info
    case TopCategoryCard => Negative
    case OverspendingAlertCard => Warning
    case GreatSavingsCard => Positive
    case ModerateSpendingCard => Info
    case CategoryGapCard => Info
    case SuggestedActionCard => Warning
    case WeeklyTipCard => Positive
    case SavingsGoalCard => Positive
    case SpendingAlertCard => Warning
  }

  /** The position of the rule that emits a kind; the three budget-health
      kinds share one rule. */
  function KindRank(k: Kind): nat {
    match k
    case DailyAverageCard => 0
    case TopCategoryCard => 1
    case OverspendingAlertCard => 2
    case GreatSavingsCard => 2
    case ModerateSpendingCard => 2
    case CategoryGapCard => 3
    case SuggestedActionCard => 4
    case WeeklyTipCard => 5
    case SavingsGoalCard => 6
    case SpendingAlertCard => 7
  }

  function Rank(x: Insight): nat { KindRank(KindOf(x)) }

  /** `new Set(expenses.map(e => e.expense_date)).size || 1` */
  function Days(es: seq<Expense>): (d: nat)
    ensures d >= 1
  {
    var n := |set e | e in es :: e.date|;
    if n == 0 then 1 else n
  }

  function DateKey(e: Expense): string { e.date }

  /** The divisor of the daily average is the number of distinct dates, or 1
      when there are no expenses. */
  lemma DaysCountsDistinctDates(es: seq<Expense>)
    ensures Days(es) == if es == [] then 1 else |FirstKeys(es, DateKey)|
  {
    var ks := FirstKeys(es, DateKey);
    assert (set e | e in es :: e.date) == (set k | k in ks) by {
      forall k | k in ks ensures k in (set e | e in es :: e.date) {
        var j :| 0 <= j < |es| && DateKey(es[j]) == k;
        assert es[j] in es;
      }
      forall e | e in es ensures e.date in ks {
        var j :| 0 <= j < |es| && es[j] == e;
        assert DateKey(es[j]) == e.date;
      }
    }
    DistinctCard(ks);
  }

  /** `e.categories?.name || 'Other'`: insights merge categories by name. */
  function NameKey(e: Expense): string { Or(CategoryNameOf(e), "Other") }

  /** `Object.entries(catMap)` after the `forEach`: each distinct name in order
      of first occurrence, with its total. */
  function NameEntries(es: seq<Expense>): (r: seq<Entry<string>>)
    ensures |r| == |FirstKeys(es, NameKey)|
  {
    var ks := FirstKeys(es, NameKey);
    seq(|ks|, i requires 0 <= i < |ks| => Entry(ks[i], KeyTotal(es, NameKey, ks[i])))
  }

  /** The comparator `b[1] - a[1]`: larger totals first. */
  function ByAmountDesc(a: Entry<string>, b: Entry<string>): bool { a.amount >= b.amount }

  lemma ByAmountDescIsTotalPreorder()
    ensures TotalPreorder(ByAmountDesc)
  {
  }

  /** `sorted`: the name entries ranked by total. */
  function Ranked(es: seq<Expense>): seq<Entry<string>> {
    ByAmountDescIsTotalPreorder();
    SortBy(NameEntries(es), ByAmountDesc)
  }

  /** The ranking holds each occurring name once, with its total, largest first. */
  lemma RankedFacts(es: seq<Expense>)
    ensures |Ranked(es)| == |FirstKeys(es, NameKey)|
    ensures |Ranked(es)| >= 1 <==> es != []
    ensures Sorted(Ranked(es), ByAmountDesc)
    ensures forall x :: x in Ranked(es) ==> x.key in FirstKeys(es, NameKey) && x.amount == KeyTotal(es, NameKey, x.key)
    ensures forall k :: k in FirstKeys(es, NameKey) ==> Entry(k, KeyTotal(es, NameKey, k)) in Ranked(es)
  {
    ByAmountDescIsTotalPreorder();
    var entries := NameEntries(es);
    var sorted := Ranked(es);
    assert forall x :: x in sorted <==> x in multiset(sorted);
    assert forall x :: x in entries <==> x in multiset(entries);
    forall x | x in sorted ensures x.key in FirstKeys(es, NameKey) && x.amount == KeyTotal(es, NameKey, x.key) {
      assert x in entries;
      var i :| 0 <= i < |entries| && entries[i] == x;
    }
    forall k | k in FirstKeys(es, NameKey) ensures Entry(k, KeyTotal(es, NameKey, k)) in sorted {
      var ks := FirstKeys(es, NameKey);
      var i :| 0 <= i < |ks| && ks[i] == k;
      assert entries[i] == Entry(k, KeyTotal(es, NameKey, k));
    }
  }

  /** The top entry's total is the largest among the occurring names. */
  lemma RankedTopIsLargest(es: seq<Expense>)
    requires es != []
    ensures Ranked(es) != []
    ensures Ranked(es)[0].key in FirstKeys(es, NameKey)
    ensures forall k :: k in FirstKeys(es, NameKey) ==> KeyTotal(es, NameKey, k) <= Ranked(es)[0].amount
  {
    RankedFacts(es);
    var sorted := Ranked(es);
    forall k | k in FirstKeys(es, NameKey) ensures KeyTotal(es, NameKey, k) <= sorted[0].amount {
      var x := Entry(k, KeyTotal(es, NameKey, k));
      assert x in sorted;
      var j :| 0 <= j < |sorted| && sorted[j] == x;
      if j > 0 {
        assert ByAmountDesc(sorted[0], sorted[j]);
      }
    }
  }

  /** The budget-health rule: only when there is income, one of three items by
      the expense/income ratio. */
  function BudgetHealth(totalExpenses: real, totalIncome: real): Option<Insight> {
    if totalIncome > 0.0 then
      var ratio := totalExpenses / totalIncome;
      if ratio > 0.9 then Some(OverspendingAlert(ratio * 100.0))
      else if ratio < 0.5 then Some(GreatSavings(ratio * 100.0))
      else Some(ModerateSpending(ratio * 100.0))
    else None
  }

  /** `(top - second) / second * 100`; JavaScript gives Infinity or NaN when the
      second total is 0, which is left without a value here. */
  function GapPercent(top: real, second: real): Option<real> {
    if second == 0.0 then None else Some((top - second) / second * 100.0)
  }

  /** The share of the top name in all spending, or 0 when nothing was spent. */
  function TopShare(top: real, totalExpenses: real): real {
    if totalExpenses > 0.0 then top / totalExpenses * 100.0 else 0.0
  }

  /** 'Top Category': the first ranked name, when there is one. */
  function TopRule(sorted: seq<Entry<string>>): Option<Insight> {
    if |sorted| >= 1 then Some(TopCategory(sorted[0].key, sorted[0].amount)) else None
  }

  /** 'Category Gap': the first two ranked names, when there are two. */
  function GapRule(sorted: seq<Entry<string>>): Option<Insight> {
    if |sorted| >= 2 then Some(CategoryGap(sorted[0].key, sorted[1].key, GapPercent(sorted[0].amount, sorted[1].amount)))
    else None
  }

  /** 'Suggested Action': the first ranked name and its share. */
  function SuggestRule(sorted: seq<Entry<string>>, totalExpenses: real): Option<Insight> {
    if |sorted| >= 1 then Some(SuggestedAction(sorted[0].key, TopShare(sorted[0].amount, totalExpenses))) else None
  }

  /** 'Weekly Tip': a fifth of a week at the daily average, when there are two names. */
  function TipRule(sorted: seq<Entry<string>>, perDay: real): Option<Insight> {
    if |sorted| >= 2 then Some(WeeklyTip(sorted[0].key, perDay * 7.0 * 0.2)) else None
  }

  /** 'Savings Goal': a tenth of what is left of the income. */
  function GoalRule(totalExpenses: real, totalIncome: real): Option<Insight> {
    if totalIncome > 0.0 && totalExpenses < totalIncome then Some(SavingsGoal((totalIncome - totalExpenses) * 0.1)) else None
  }

  /** 'Spending Alert': the second ranked name, when it exceeds a quarter of all spending. */
  function AlertRule(sorted: seq<Entry<string>>, totalExpenses: real): Option<Insight> {
    if |sorted| >= 2 && sorted[1].amount > totalExpenses * 0.25 then Some(SpendingAlert(sorted[1].key)) else None
  }

  /** The eight rules in the order the page applies them, each with the item it
      pushes or None, over the figures the page computes first. */
  function Rules(totalExpenses: real, days: nat, sorted: seq<Entry<string>>, totalIncome: real): (s: seq<Option<Insight>>)
    requires days >= 1
    ensures |s| == 8
  {
    var perDay := totalExpenses / days as real;
    [ Some(DailyAverage(perDay)),
      TopRule(sorted),
      BudgetHealth(totalExpenses, totalIncome),
      GapRule(sorted),
      SuggestRule(sorted, totalExpenses),
      TipRule(sorted, perDay),
      GoalRule(totalExpenses, totalIncome),
      AlertRule(sorted, totalExpenses) ]
  }

  function Slots(es: seq<Expense>, totalIncome: real): (s: seq<Option<Insight>>)
    ensures |s| == 8
  {
    Rules(Total(es), Days(es), Ranked(es), totalIncome)
  }

  /** The values of the present options, in order. */
  function Somes<T>(s: seq<Option<T>>): (r: seq<T>)
    ensures |r| <= |s|
  {
    if s == [] then [] else Somes(s[..|s| - 1]) + (if s[|s| - 1].Some? then [s[|s| - 1].value] else [])
  }

  lemma SomesStep<T>(s: seq<Option<T>>, k: nat)
    requires k < |s|
    ensures Somes(s[..k + 1]) == Somes(s[..k]) + (if s[k].Some? then [s[k].value] else [])
  {
    assert s[..k + 1][..k] == s[..k];
  }

  lemma {:induction false} InSomes<T>(s: seq<Option<T>>, x: T)
    ensures x in Somes(s) <==> Some(x) in s
  {
    if s != [] {
      var n := |s| - 1;
      InSomes(s[..n], x);
      assert s == s[..n] + [s[n]];
    }
  }

  lemma {:induction false} SomesHead<T>(s: seq<Option<T>>)
    requires s != [] && s[0].Some?
    ensures Somes(s) != [] && Somes(s)[0] == s[0].value
  {
    var n := |s| - 1;
    if n > 0 {
      SomesHead(s[..n]);
    }
  }

  /** Items taken from rules whose positions are their ranks come out with
      strictly increasing ranks, all below the number of rules. */
  lemma {:induction false} SomesRanked(s: seq<Option<Insight>>)
    requires RanksMatch(s)
    ensures forall i, j :: 0 <= i < j < |Somes(s)| ==> Rank(Somes(s)[i]) < Rank(Somes(s)[j])
    ensures forall i :: 0 <= i < |Somes(s)| ==> Rank(Somes(s)[i]) < |s|
  {
    if s != [] {
      var n := |s| - 1;
      SomesRanked(s[..n]);
    }
  }

  /** The `insights` list. */
  function InsightList(expenseData: Option<seq<Expense>>, incomeData: Option<seq<Income>>): seq<Insight> {
    Somes(Slots(Loaded(expenseData), IncomeTotal(Loaded(incomeData))))
  }

  /** The list always starts with the daily average over the distinct dates, is
      in rule order, and holds between one and eight items. */
  lemma InsightListShape(expenseData: Option<seq<Expense>>, incomeData: Option<seq<Income>>)
    ensures 1 <= |InsightList(expenseData, incomeData)| <= 8
    ensures InsightList(expenseData, incomeData)[0] == DailyAverage(Total(Loaded(expenseData)) / Days(Loaded(expenseData)) as real)
    ensures forall i, j :: 0 <= i < j < |InsightList(expenseData, incomeData)| ==>
      Rank(InsightList(expenseData, incomeData)[i]) < Rank(InsightList(expenseData, incomeData)[j])
  {
    var es := Loaded(expenseData);
    var s := Rules(Total(es), Days(es), Ranked(es), IncomeTotal(Loaded(incomeData)));
    RulesRanksMatch(Total(es), Days(es), Ranked(es), IncomeTotal(Loaded(incomeData)));
    SomesHead(s);
    SomesRanked(s);
  }

  /** Some item of the list is of the given kind. */
  predicate Emitted(r: seq<Insight>, kind: Kind) {
    exists i :: 0 <= i < |r| && KindOf(r[i]) == kind
  }

  /** Each rule pushes items of its own rank only. */
  ghost predicate RanksMatch(s: seq<Option<Insight>>) {
    forall k :: 0 <= k < |s| && s[k].Some? ==> Rank(s[k].value) == k
  }

  lemma RulesRanksMatch(totalExpenses: real, days: nat, sorted: seq<Entry<string>>, totalIncome: real)
    requires days >= 1
    ensures RanksMatch(Rules(totalExpenses, days, sorted, totalIncome))
  {
  }

  /** A kind is emitted exactly when its rule pushed an item of that kind. */
  lemma EmittedIff(s: seq<Option<Insight>>, kind: Kind)
    requires RanksMatch(s) && KindRank(kind) < |s|
    ensures Emitted(Somes(s), kind) <==> s[KindRank(kind)].Some? && KindOf(s[KindRank(kind)].value) == kind
  {
    var r := Somes(s);
    var k := KindRank(kind);
    if Emitted(r, kind) {
      var i :| 0 <= i < |r| && KindOf(r[i]) == kind;
      InSomes(s, r[i]);
      var j :| 0 <= j < |s| && s[j] == Some(r[i]);
    }
    if s[k].Some? && KindOf(s[k].value) == kind {
      InSomes(s, s[k].value);
      var i :| 0 <= i < |r| && r[i] == s[k].value;
    }
  }

  /** Which items the ranking decides. */
  lemma RankingRulesEmitted(totalExpenses: real, days: nat, sorted: seq<Entry<string>>, totalIncome: real)
    requires days >= 1
    ensures var r := Somes(Rules(totalExpenses, days, sorted, totalIncome));
      && Emitted(r, DailyAverageCard)
      && (Emitted(r, TopCategoryCard) <==> |sorted| >= 1)
      && (Emitted(r, CategoryGapCard) <==> |sorted| >= 2)
      && (Emitted(r, SuggestedActionCard) <==> |sorted| >= 1)
      && (Emitted(r, WeeklyTipCard) <==> |sorted| >= 2)
      && (Emitted(r, SpendingAlertCard) <==> |sorted| >= 2 && sorted[1].amount > totalExpenses * 0.25)
  {
    var s := Rules(totalExpenses, days, sorted, totalIncome);
    RulesRanksMatch(totalExpenses, days, sorted, totalIncome);
    EmittedIff(s, DailyAverageCard);
    EmittedIff(s, TopCategoryCard);
    EmittedIff(s, CategoryGapCard);
    EmittedIff(s, SuggestedActionCard);
    EmittedIff(s, WeeklyTipCard);
    EmittedIff(s, SpendingAlertCard);
  }

  /** Which items the expense/income ratio decides: with income, exactly one
      budget-health item. */
  lemma IncomeRulesEmitted(totalExpenses: real, days: nat, sorted: seq<Entry<string>>, totalIncome: real)
    requires days >= 1
    ensures var r := Somes(Rules(totalExpenses, days, sorted, totalIncome));
      && (Emitted(r, OverspendingAlertCard) <==> totalIncome > 0.0 && totalExpenses / totalIncome > 0.9)
      && (Emitted(r, GreatSavingsCard) <==> totalIncome > 0.0 && totalExpenses / totalIncome < 0.5)
      && (Emitted(r, ModerateSpendingCard) <==> totalIncome > 0.0 && 0.5 <= totalExpenses / totalIncome <= 0.9)
      && (Emitted(r, SavingsGoalCard) <==> totalIncome > 0.0 && totalExpenses < totalIncome)
  {
    var s := Rules(totalExpenses, days, sorted, totalIncome);
    RulesRanksMatch(totalExpenses, days, sorted, totalIncome);
    EmittedIff(s, OverspendingAlertCard);
    EmittedIff(s, GreatSavingsCard);
    EmittedIff(s, ModerateSpendingCard);
    EmittedIff(s, SavingsGoalCard);
  }

  /** Which items appear, rule by rule (the kinds' titles are the page's): the
      ranking has one entry per distinct category name. */
  lemma InsightRules(expenseData: Option<seq<Expense>>, incomeData: Option<seq<Income>>)
    ensures |Ranked(Loaded(expenseData))| == |FirstKeys(Loaded(expenseData), NameKey)|
    ensures var r := InsightList(expenseData, incomeData);
      var es := Loaded(expenseData);
      var income := IncomeTotal(Loaded(incomeData));
      && Emitted(r, DailyAverageCard)
      && (Emitted(r, TopCategoryCard) <==> es != [])
      && (Emitted(r, OverspendingAlertCard) <==> income > 0.0 && Total(es) / income > 0.9)
      && (Emitted(r, GreatSavingsCard) <==> income > 0.0 && Total(es) / income < 0.5)
      && (Emitted(r, ModerateSpendingCard) <==> income > 0.0 && 0.5 <= Total(es) / income <= 0.9)
      && (Emitted(r, CategoryGapCard) <==> |FirstKeys(es, NameKey)| >= 2)
      && (Emitted(r, SuggestedActionCard) <==> es != [])
      && (Emitted(r, WeeklyTipCard) <==> |FirstKeys(es, NameKey)| >= 2)
      && (Emitted(r, SavingsGoalCard) <==> income > 0.0 && Total(es) < income)
      && (Emitted(r, SpendingAlertCard) <==>
            |FirstKeys(es, NameKey)| >= 2 && Ranked(es)[1].amount > Total(es) * 0.25)
  {
    var es := Loaded(expenseData);
    RankedFacts(es);
    RankingRulesEmitted(Total(es), Days(es), Ranked(es), IncomeTotal(Loaded(incomeData)));
    IncomeRulesEmitted(Total(es), Days(es), Ranked(es), IncomeTotal(Loaded(incomeData)));
  }

  /** Every item of the list is the one its rule pushed. */
  lemma FromSlot(s: seq<Option<Insight>>, x: Insight)
    requires RanksMatch(s) && x in Somes(s)
    ensures Rank(x) < |s| && s[Rank(x)] == Some(x)
  {
    InSomes(s, x);
    var j :| 0 <= j < |s| && s[j] == Some(x);
  }

  /** The item a rule pushes, in terms of the figures it is computed from. */
  lemma RuleItem(totalExpenses: real, days: nat, sorted: seq<Entry<string>>, totalIncome: real, x: Insight)
    requires days >= 1
    requires x in Somes(Rules(totalExpenses, days, sorted, totalIncome))
    ensures x.DailyAverage? ==> x.perDay == totalExpenses / days as real
    ensures x.TopCategory? ==> |sorted| >= 1 && x.name == sorted[0].key && x.amount == sorted[0].amount
    ensures (x.OverspendingAlert? || x.GreatSavings? || x.ModerateSpending?) ==>
      totalIncome > 0.0 && x.percent == totalExpenses / totalIncome * 100.0
    ensures x.CategoryGap? ==>
      |sorted| >= 2 && x.top == sorted[0].key && x.second == sorted[1].key
      && (x.percentHigher.None? <==> sorted[1].amount == 0.0)
    ensures x.SuggestedAction? ==>
      |sorted| >= 1 && x.name == sorted[0].key
      && x.percent == (if totalExpenses > 0.0 then sorted[0].amount / totalExpenses * 100.0 else 0.0)
    ensures x.WeeklyTip? ==>
      |sorted| >= 2 && x.name == sorted[0].key && x.limit == totalExpenses / days as real * 7.0 * 0.2
    ensures x.SavingsGoal? ==>
      totalIncome > 0.0 && totalExpenses < totalIncome && x.saveable == (totalIncome - totalExpenses) * 0.1
    ensures x.SpendingAlert? ==>
      |sorted| >= 2 && x.name == sorted[1].key && sorted[1].amount > totalExpenses * 0.25
  {
    var s := Rules(totalExpenses, days, sorted, totalIncome);
    RulesRanksMatch(totalExpenses, days, sorted, totalIncome);
    FromSlot(s, x);
  }

  /** 'Top Category' and 'Suggested Action' name the category name with the
      largest total; the suggested share is 0 when nothing was spent. */
  lemma TopItems(expenseData: Option<seq<Expense>>, incomeData: Option<seq<Income>>, x: Insight)
    requires x in InsightList(expenseData, incomeData)
    requires x.TopCategory? || x.SuggestedAction?
    ensures var es := Loaded(expenseData);
      && x.name in FirstKeys(es, NameKey)
      && (forall k :: k in FirstKeys(es, NameKey) ==> KeyTotal(es, NameKey, k) <= KeyTotal(es, NameKey, x.name))
    ensures x.TopCategory? ==> x.amount == KeyTotal(Loaded(expenseData), NameKey, x.name)
    ensures var es := Loaded(expenseData);
      x.SuggestedAction? ==> x.percent == (if Total(es) > 0.0 then KeyTotal(es, NameKey, x.name) / Total(es) * 100.0 else 0.0)
  {
    var es := Loaded(expenseData);
    RuleItem(Total(es), Days(es), Ranked(es), IncomeTotal(Loaded(incomeData)), x);
    RankedFacts(es);
    RankedTopIsLargest(es);
    assert Ranked(es)[0] in Ranked(es);
  }

  /** 'Category Gap' compares the two largest names; its percentage has no value
      when the second total is 0. 'Spending Alert' names the second largest,
      whose total exceeds a quarter of all spending. */
  lemma SecondItems(expenseData: Option<seq<Expense>>, incomeData: Option<seq<Income>>, x: Insight)
    requires x in InsightList(expenseData, incomeData)
    ensures var es := Loaded(expenseData);
      x.CategoryGap? ==>
        && x.top in FirstKeys(es, NameKey) && x.second in FirstKeys(es, NameKey)
        && x.top != x.second
        && KeyTotal(es, NameKey, x.second) <= KeyTotal(es, NameKey, x.top)
        && (x.percentHigher.None? <==> KeyTotal(es, NameKey, x.second) == 0.0)
    ensures var es := Loaded(expenseData);
      x.SpendingAlert? ==>
        && x.name in FirstKeys(es, NameKey)
        && KeyTotal(es, NameKey, x.name) > Total(es) * 0.25
        && exists k :: k in FirstKeys(es, NameKey) && k != x.name && KeyTotal(es, NameKey, k) >= KeyTotal(es, NameKey, x.name)
  {
    var es := Loaded(expenseData);
    RuleItem(Total(es), Days(es), Ranked(es), IncomeTotal(Loaded(incomeData)), x);
    if x.CategoryGap? || x.SpendingAlert? {
      RankedFacts(es);
      var sorted := Ranked(es);
      assert sorted[0] in sorted && sorted[1] in sorted;
      assert ByAmountDesc(sorted[0], sorted[1]);
      RankedKeysDistinct(es);
      assert sorted[0].key != sorted[1].key;
    }
  }

  /** The tone of the budget-health item follows the ratio that chose it:
      warning above 0.9, positive below 0.5, info in between. */
  lemma BudgetHealthTone(expenseData: Option<seq<Expense>>, incomeData: Option<seq<Income>>, x: Insight)
    requires x in InsightList(expenseData, incomeData)
    requires x.OverspendingAlert? || x.GreatSavings? || x.ModerateSpending?
    ensures var income := IncomeTotal(Loaded(incomeData));
      && income > 0.0
      && var ratio := Total(Loaded(expenseData)) / income;
         ToneOf(KindOf(x)) == (if ratio > 0.9 then Warning else if ratio < 0.5 then Positive else Info)
  {
    var es := Loaded(expenseData);
    var s := Slots(es, IncomeTotal(Loaded(incomeData)));
    RulesRanksMatch(Total(es), Days(es), Ranked(es), IncomeTotal(Loaded(incomeData)));
    FromSlot(s, x);
  }

  /** Each kind has its own title, so a card's title tells which rule pushed it. */
  lemma TitlesDistinct(a: Kind, b: Kind)
    ensures Title(a) == Title(b) <==> a == b
  {
  }

  /** The ranking holds each name once. */
  lemma RankedKeysDistinct(es: seq<Expense>)
    ensures DistinctBy(Ranked(es), EntryKey)
  {
    var entries := NameEntries(es);
    assert DistinctBy(entries, EntryKey);
    ByAmountDescIsTotalPreorder();
    SortDistinctBy(entries, ByAmountDesc, EntryKey);
  }

  /** The amounts of the daily-average, weekly-tip, budget-health and savings
      items: the tip's limit is 20% of a week at the daily average. */
  lemma FigureItems(expenseData: Option<seq<Expense>>, incomeData: Option<seq<Income>>, x: Insight)
    requires x in InsightList(expenseData, incomeData)
    ensures var es := Loaded(expenseData);
      x.DailyAverage? ==> x.perDay == Total(es) / Days(es) as real
    ensures var es := Loaded(expenseData);
      x.WeeklyTip? ==> x.limit == Total(es) / Days(es) as real * 7.0 * 0.2
    ensures var es := Loaded(expenseData);
      var income := IncomeTotal(Loaded(incomeData));
      (x.OverspendingAlert? || x.GreatSavings? || x.ModerateSpending?) ==>
        income > 0.0 && x.percent == Total(es) / income * 100.0
    ensures var es := Loaded(expenseData);
      var income := IncomeTotal(Loaded(incomeData));
      x.SavingsGoal? ==> x.saveable == (income - Total(es)) * 0.1 && x.saveable > 0.0
  {
    var es := Loaded(expenseData);
    RuleItem(Total(es), Days(es), Ranked(es), IncomeTotal(Loaded(incomeData)), x);
  }

  /** The accumulated name totals, as `Object.entries`, are the name entries. */
  lemma AccumulatedEntries(es: seq<Expense>, order: seq<string>, totals: map<string, real>)
    requires order == FirstKeys(es, NameKey)
    requires forall k :: k in totals <==> k in order
    requires forall k :: k in totals ==> totals[k] == KeyTotal(es, NameKey, k)
    ensures Entries(order, totals) == NameEntries(es)
  {
  }

  /** Pushing what rule k yields onto the items of the rules before it gives
      the items of the first k + 1 rules. */
  lemma Pushed(s: seq<Option<Insight>>, k: nat, prev: seq<Insight>, result: seq<Insight>)
    requires k < |s| && prev == Somes(s[..k])
    requires result == prev + (if s[k].Some? then [s[k].value] else [])
    ensures result == Somes(s[..k + 1])
  {
    SomesStep(s, k);
  }

  /** The `catMap` loop and `Object.entries(catMap).sort(...)`. */
  method RankNames(expenses: seq<Expense>) returns (sorted: seq<Entry<string>>)
    ensures sorted == Ranked(expenses)
  {
    var order, catMap := Accumulate(expenses, NameKey);
    AccumulatedEntries(expenses, order, catMap);
    ByAmountDescIsTotalPreorder();
    sorted := SortBy(Entries(order, catMap), ByAmountDesc);
  }

  /** The `useMemo` computation: the ranking of names and the pushes of the
      eight rules in order. */
  method ComputeInsights(expenseData: Option<seq<Expense>>, incomeData: Option<seq<Income>>) returns (result: seq<Insight>)
    ensures result == InsightList(expenseData, incomeData)
  {
    var expenses := Loaded(expenseData);
    var totalIncome := IncomeTotal(Loaded(incomeData));
    var totalExpenses := Total(expenses);
    var days := Days(expenses);
    var sorted := RankNames(expenses);
    result := SummaryInsights(totalExpenses, days, sorted, totalIncome);
    result := SuggestedActions(totalExpenses, days, sorted, totalIncome, result);
    assert Rules(totalExpenses, days, sorted, totalIncome)[..8] == Rules(totalExpenses, days, sorted, totalIncome);
  }

  /** Daily average, top category, budget health and category comparison. */
  method SummaryInsights(totalExpenses: real, days: nat, sorted: seq<Entry<string>>, totalIncome: real) returns (result: seq<Insight>)
    requires days >= 1
    ensures result == Somes(Rules(totalExpenses, days, sorted, totalIncome)[..4])
  {
    ghost var s := Rules(totalExpenses, days, sorted, totalIncome);
    result := [DailyAverage(totalExpenses / days as real)];
    SomesStep(s, 0);

    ghost var prev := result;
    if |sorted| >= 1 {
      result := result + [TopCategory(sorted[0].key, sorted[0].amount)];
    }
    Pushed(s, 1, prev, result);

    prev := result;
    if totalIncome > 0.0 {
      var ratio := totalExpenses / totalIncome;
      if ratio > 0.9 {
        result := result + [OverspendingAlert(ratio * 100.0)];
      } else if ratio < 0.5 {
        result := result + [GreatSavings(ratio * 100.0)];
      } else {
        result := result + [ModerateSpending(ratio * 100.0)];
      }
    }
    Pushed(s, 2, prev, result);

    prev := result;
    if |sorted| >= 2 {
      var diff := if sorted[1].amount == 0.0 then None else Some((sorted[0].amount - sorted[1].amount) / sorted[1].amount * 100.0);
      result := result + [CategoryGap(sorted[0].key, sorted[1].key, diff)];
    }
    Pushed(s, 3, prev, result);
  }

  /** The dynamic suggested actions, pushed after the first four rules' items. */
  method SuggestedActions(totalExpenses: real, days: nat, sorted: seq<Entry<string>>, totalIncome: real, items: seq<Insight>)
    returns (result: seq<Insight>)
    requires days >= 1
    requires items == Somes(Rules(totalExpenses, days, sorted, totalIncome)[..4])
    ensures result == Somes(Rules(totalExpenses, days, sorted, totalIncome)[..8])
  {
    ghost var s := Rules(totalExpenses, days, sorted, totalIncome);
    result := items;

    ghost var prev := result;
    if |sorted| >= 1 {
      var topPct := if totalExpenses > 0.0 then sorted[0].amount / totalExpenses * 100.0 else 0.0;
      result := result + [SuggestedAction(sorted[0].key, topPct)];
    }
    Pushed(s, 4, prev, result);

    prev := result;
    if |sorted| >= 2 {
      var weeklyAvg := totalExpenses / days as real * 7.0;
      result := result + [WeeklyTip(sorted[0].key, weeklyAvg * 0.2)];
    }
    Pushed(s, 5, prev, result);

    prev := result;
    if totalIncome > 0.0 && totalExpenses < totalIncome {
      result := result + [SavingsGoal((totalIncome - totalExpenses) * 0.1)];
    }
    Pushed(s, 6, prev, result);

    prev := result;
    if |sorted| >= 2 {
      var secondCat := sorted[1];
      if secondCat.amount > totalExpenses * 0.25 {
        result := result + [SpendingAlert(secondCat.key)];
      }
    }
    Pushed(s, 7, prev, result);
  }
}
