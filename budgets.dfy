/** The budgets page: this month's spending per category, the budget found for
    each category, the progress bar and its warning, the save rule, the monthly
    header, and the per-category input state. */
module Budgets {
  import opened Records
  import opened Sums
  import opened Buckets

  /** `e.category_id || 'other'` */
  function BudgetKey(e: Expense): string { Or(e.categoryId, "other") }

  /** The filter of `spentByCategory`: the expense falls in the given 1-based
      month of the given year. */
  function InMonth(month: int, year: int): Expense -> bool {
    (e: Expense) => e.month + 1 == month && e.year == year
  }

  /** `spentByCategory`: the `forEach` over this month's expenses that adds each
      amount to the total of its category id. */
  method SpentByCategory(data: Option<seq<Expense>>, month: int, year: int) returns (order: seq<string>, spent: map<string, real>)
    ensures var current := Filter(Loaded(data), InMonth(month, year));
      && order == FirstKeys(current, BudgetKey)
      && (forall k :: k in spent <==> exists j :: 0 <= j < |current| && BudgetKey(current[j]) == k)
      && (forall k :: k in spent ==> spent[k] == KeyTotal(current, BudgetKey, k))
      && (forall k :: k !in spent ==> KeyTotal(current, BudgetKey, k) == 0.0)
  {
    var current := Filter(Loaded(data), InMonth(month, year));
    order, spent := Accumulate(current, BudgetKey);
  }

  /** An expense outside the month leaves every category's spending as it was;
      one inside raises exactly its own category, by its amount. */
  lemma SpentSnoc(es: seq<Expense>, e: Expense, month: int, year: int, k: string)
    ensures KeyTotal(Filter(es + [e], InMonth(month, year)), BudgetKey, k)
      == KeyTotal(Filter(es, InMonth(month, year)), BudgetKey, k)
         + (if e.month + 1 == month && e.year == year && BudgetKey(e) == k then e.amount else 0.0)
  {
    FilterSnoc(es, e, InMonth(month, year));
    assert InMonth(month, year)(e) == (e.month + 1 == month && e.year == year);
    var before := Filter(es, InMonth(month, year));
    if e.month + 1 == month && e.year == year {
      assert Filter(es + [e], InMonth(month, year)) == before + [e];
      KeyTotalSnoc(before, e, BudgetKey, k);
    } else {
      assert Filter(es + [e], InMonth(month, year)) == before + [];
      assert before + [] == before;
    }
  }

  /** `spentByCategory[cat.id] || 0` */
  function SpentFor(spent: map<string, real>, id: string): real {
    if id in spent then spent[id] else 0.0
  }

  /** The category's spending is the total of its expenses in the month, 0 for
      a category with none. */
  lemma SpentForIsMonthTotal(data: Option<seq<Expense>>, month: int, year: int, spent: map<string, real>, id: string)
    requires forall k :: k in spent ==> spent[k] == KeyTotal(Filter(Loaded(data), InMonth(month, year)), BudgetKey, k)
    requires forall k :: k !in spent ==> KeyTotal(Filter(Loaded(data), InMonth(month, year)), BudgetKey, k) == 0.0
    ensures SpentFor(spent, id) == KeyTotal(Filter(Loaded(data), InMonth(month, year)), BudgetKey, id)
  {
  }

  /** `b => b.category_id === catId` */
  function OfCategory(id: string): Budget -> bool {
    (b: Budget) => b.categoryId == id
  }

  /** `budgets.data?.find(b => b.category_id === catId)`: the first budget of
      the category, if any. */
  function FindBudget(budgets: Option<seq<Budget>>, id: string): (r: Option<Budget>)
    ensures r.None? <==> forall i :: 0 <= i < |Loaded(budgets)| ==> Loaded(budgets)[i].categoryId != id
    ensures r.Some? ==> r.value.categoryId == id && exists i :: (0 <= i < |Loaded(budgets)| && Loaded(budgets)[i] == r.value
      && forall j :: 0 <= j < i ==> Loaded(budgets)[j].categoryId != id)
  {
    Find(Loaded(budgets), OfCategory(id))
  }

  function Min(a: real, b: real): real { if a <= b then a else b }

  /** `budget ? Number(budget.amount) : 0` */
  function BudgetAmountOf(budget: Option<Budget>): real {
    if budget.Some? then budget.value.amount else 0.0
  }

  /** `pct`: the spending as a percentage of the budget, capped at 100, and 0
      when there is no positive budget. */
  function Pct(spent: real, budgetAmount: real): (pct: real)
    ensures pct <= 100.0
    ensures budgetAmount <= 0.0 ==> pct == 0.0
    ensures spent >= 0.0 ==> pct >= 0.0
  {
    if budgetAmount > 0.0 then Min(spent / budgetAmount * 100.0, 100.0) else 0.0
  }

  /** For a positive budget, the uncapped percentage reaches t exactly when the
      spending reaches t hundredths of the budget. */
  lemma PercentReaches(spent: real, budgetAmount: real, t: real)
    requires budgetAmount > 0.0
    ensures spent / budgetAmount * 100.0 >= t <==> spent >= t / 100.0 * budgetAmount
  {
    var q := spent / budgetAmount;
    assert q * budgetAmount == spent;
    if q * 100.0 >= t {
      assert q >= t / 100.0;
      assert q * budgetAmount >= t / 100.0 * budgetAmount;
    }
    if spent >= t / 100.0 * budgetAmount {
      assert q * budgetAmount >= (t / 100.0) * budgetAmount;
      assert q >= t / 100.0;
    }
  }

  /** The bar is full exactly when the spending reaches a positive budget. */
  lemma PctFull(spent: real, budgetAmount: real)
    ensures Pct(spent, budgetAmount) == 100.0 <==> budgetAmount > 0.0 && spent >= budgetAmount
  {
    if budgetAmount > 0.0 {
      PercentReaches(spent, budgetAmount, 100.0);
    }
  }

  /** `isOver80` */
  function IsOver80(pct: real): bool { pct >= 80.0 }

  /** The warning shows exactly when a positive budget is at least 80% spent. */
  lemma WarningIff(spent: real, budgetAmount: real)
    ensures IsOver80(Pct(spent, budgetAmount)) <==> budgetAmount > 0.0 && spent >= 0.8 * budgetAmount
  {
    if budgetAmount > 0.0 {
      PercentReaches(spent, budgetAmount, 80.0);
    }
  }

  /** What one category card shows. */
  datatype Card = Card(spent: real, budgetAmount: real, pct: real, warning: bool, showProgress: bool)

  function CardFor(budgets: Option<seq<Budget>>, spent: map<string, real>, id: string): (c: Card)
    ensures c.spent == SpentFor(spent, id)
    ensures c.budgetAmount == BudgetAmountOf(FindBudget(budgets, id))
    ensures c.pct == Pct(c.spent, c.budgetAmount) && c.pct <= 100.0
    ensures c.warning <==> c.budgetAmount > 0.0 && c.spent >= 0.8 * c.budgetAmount
    ensures c.warning ==> c.showProgress
    ensures c.showProgress <==> c.budgetAmount > 0.0
    ensures FindBudget(budgets, id).None? ==> c.budgetAmount == 0.0 && !c.warning && !c.showProgress
  {
    var budgetAmount := BudgetAmountOf(FindBudget(budgets, id));
    var s := SpentFor(spent, id);
    var pct := Pct(s, budgetAmount);
    WarningIff(s, budgetAmount);
    Card(s, budgetAmount, pct, IsOver80(pct), budgetAmount > 0.0)
  }

  /** The monthly header: the sum of the amounts of this month's budgets. */
  function MonthlyBudget(budgets: Option<seq<Budget>>): (total: real)
    ensures budgets.None? ==> total == 0.0
    ensures budgets == Some([]) ==> total == 0.0
  {
    BudgetTotal(Loaded(budgets))
  }

  /** One more budget raises the header by its amount. With the empty case
      above, this fixes the header as the sum of the loaded amounts. */
  lemma MonthlyBudgetSnoc(budgets: seq<Budget>, b: Budget)
    ensures MonthlyBudget(Some(budgets + [b])) == MonthlyBudget(Some(budgets)) + b.amount
  {
    SumOfSnoc(budgets, b, BudgetAmount);
  }

  /** With no negative budgets, the header is at least every single budget. */
  lemma MonthlyBudgetFacts(budgets: seq<Budget>, i: nat)
    requires i < |budgets|
    requires forall j :: 0 <= j < |budgets| ==> budgets[j].amount >= 0.0
    ensures 0.0 <= budgets[i].amount <= MonthlyBudget(Some(budgets))
  {
    SumBoundsEach(budgets, BudgetAmount, i);
  }

  /** The page's input state: the text typed per category id. */
  class BudgetsPage {
    var editAmounts: map<string, string>

    constructor()
      ensures editAmounts == map[]
    {
      editAmounts := map[];
    }

    /** `editAmounts[cat.id] || ''`, the input's value. */
    function InputValue(id: string): string
      reads this
    {
      Or(if id in editAmounts then Some(editAmounts[id]) else None, "")
    }

    /** `setEditAmounts({ ...editAmounts, [cat.id]: value })` */
    method Edit(id: string, value: string)
      modifies this
      ensures editAmounts == old(editAmounts)[id := value]
      ensures InputValue(id) == value
      ensures forall k :: k != id ==> InputValue(k) == old(InputValue(k))
    {
      editAmounts := editAmounts[id := value];
    }

    /** `handleSave`: parse reads a number as `parseFloat` does, None standing
        for NaN. The input, or "0" when it is missing or empty, is parsed; 0 and
        NaN are refused and any other amount, negative ones included, is sent
        with the current 1-based month and year. */
    method HandleSave(id: string, month: int, year: int, parse: string -> Option<real>) returns (request: Option<Budget>)
      ensures var amount := parse(Or(if id in editAmounts then Some(editAmounts[id]) else None, "0"));
        request.None? <==> amount.None? || amount.value == 0.0
      ensures request.Some? ==> request.value == Budget(id, parse(Or(if id in editAmounts then Some(editAmounts[id]) else None, "0")).value, month, year)
      ensures parse("0") == Some(0.0) && InputValue(id) == "" ==> request.None?
    {
      var text := Or(if id in editAmounts then Some(editAmounts[id]) else None, "0");
      var amount := parse(text);
      if amount.None? || amount.value == 0.0 {
        request := None;
      } else {
        request := Some(Budget(id, amount.value, month, year));
      }
    }
  }
}
