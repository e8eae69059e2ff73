/** The category detail page: the category named by the route, its expenses
    newest first, their total and count, and their week-of-month breakdown. */
module CategoryDetail {
  import opened Records
  import opened Sums
  import opened Buckets
  import opened Ranking

  /** `c => c.id === id` */
  function HasId(id: string): Category -> bool {
    (c: Category) => c.id == id
  }

  /** `categories.data?.find(c => c.id === id)` */
  function FindCategory(categories: Option<seq<Category>>, id: string): (r: Option<Category>)
    ensures r.None? <==> forall i :: 0 <= i < |Loaded(categories)| ==> Loaded(categories)[i].id != id
    ensures r.Some? ==> r.value.id == id && r.value in Loaded(categories)
  {
    Find(Loaded(categories), HasId(id))
  }

  /** Code-point lexicographic order on strings, which is what `localeCompare`
      gives on ISO dates. */
  predicate LexLe(a: string, b: string) {
    a == [] || (b != [] && (a[0] < b[0] || (a[0] == b[0] && LexLe(a[1..], b[1..]))))
  }

  lemma {:induction false} LexLeTotal(a: string, b: string)
    ensures LexLe(a, b) || LexLe(b, a)
  {
    if a != [] && b != [] && a[0] == b[0] {
      LexLeTotal(a[1..], b[1..]);
    }
  }

  lemma {:induction false} LexLeTransitive(a: string, b: string, c: string)
    requires LexLe(a, b) && LexLe(b, c)
    ensures LexLe(a, c)
  {
    if a != [] && b != [] && c != [] && a[0] == b[0] && b[0] == c[0] {
      LexLeTransitive(a[1..], b[1..], c[1..]);
    }
  }

  /** `(a, b) => b.expense_date.localeCompare(a.expense_date)`: later dates first. */
  function ByDateDesc(a: Expense, b: Expense): bool { LexLe(b.date, a.date) }

  lemma ByDateDescIsTotalPreorder()
    ensures TotalPreorder(ByDateDesc)
  {
    forall a: Expense, b: Expense ensures ByDateDesc(a, b) || ByDateDesc(b, a) {
      LexLeTotal(a.date, b.date);
    }
    forall a: Expense, b: Expense, c: Expense | ByDateDesc(a, b) && ByDateDesc(b, c) ensures ByDateDesc(a, c) {
      LexLeTransitive(c.date, b.date, a.date);
    }
  }

  /** `e => e.category_id === id` */
  function InCategory(id: string): Expense -> bool {
    (e: Expense) => e.categoryId == Some(id)
  }

  /** `categoryExpenses`: the expenses of the category, newest first. */
  function CategoryExpenses(data: Option<seq<Expense>>, id: string): (r: seq<Expense>)
    ensures forall e :: e in r <==> e in Loaded(data) && e.categoryId == Some(id)
    ensures multiset(r) == multiset(Filter(Loaded(data), InCategory(id)))
    ensures Sorted(r, ByDateDesc)
  {
    ByDateDescIsTotalPreorder();
    var r := SortBy(Filter(Loaded(data), InCategory(id)), ByDateDesc);
    assert forall e :: e in r <==> e in multiset(r);
    r
  }

  /** `totalSpent` is the total of the category's expenses, whatever their
      order. */
  lemma TotalSpentIsCategoryTotal(data: Option<seq<Expense>>, id: string)
    ensures Total(CategoryExpenses(data, id)) == Total(Filter(Loaded(data), InCategory(id)))
    ensures |CategoryExpenses(data, id)| == |Filter(Loaded(data), InCategory(id))|
  {
    var r := CategoryExpenses(data, id);
    SumOfPermutation(r, Filter(Loaded(data), InCategory(id)), ExpenseAmount);
    assert |multiset(r)| == |multiset(Filter(Loaded(data), InCategory(id)))|;
  }

  /** `Math.ceil(d.getDate() / 7)` */
  function WeekOfMonth(day: DayOfMonth): (w: int)
    ensures 1 <= w <= 5
    ensures 7 * (w - 1) < day <= 7 * w
  {
    (day + 6) / 7
  }

  /** `W${week}` for the only weeks there are. */
  function WeekLabel(w: int): string
    requires 1 <= w <= 5
  {
    ['W', ('0' as int + w) as char]
  }

  const WeekLabels: seq<string> := ["W1", "W2", "W3", "W4", "W5"]

  function WeekKey(e: Expense): string { WeekLabel(WeekOfMonth(e.day)) }

  lemma WeekKeyIsLabel(e: Expense)
    ensures WeekKey(e) in WeekLabels
    ensures WeekKey(e) == WeekLabels[WeekOfMonth(e.day) - 1]
  {
  }

  /** Distinct labels drawn from W1..W5 are at most five. */
  lemma {:induction false} AtMostFiveLabels(ks: seq<string>)
    requires Distinct(ks)
    requires forall k :: k in ks ==> k in WeekLabels
    ensures |ks| <= 5
  {
    DistinctCard(ks);
    var set5 := set k | k in WeekLabels;
    assert (set k | k in ks) <= set5;
    assert |set5| <= 5 by {
      assert set5 == {"W1", "W2", "W3", "W4", "W5"};
    }
    var used := set k | k in ks;
    SubsetCard(used, set5);
  }

  lemma SubsetCard(a: set<string>, b: set<string>)
    requires a <= b
    ensures |a| <= |b|
  {
    assert b == a + (b - a);
  }

  /** `Object.entries(map).map(...).slice(0, 5)` */
  function FirstFive(rows: seq<Entry<string>>): (r: seq<Entry<string>>)
    ensures |r| <= 5
    ensures |rows| <= 5 ==> r == rows
  {
    if |rows| <= 5 then rows else rows[..5]
  }

  /** `weeklyData`: the `forEach` over the category's expenses that adds each
      amount to its week's total, then the first five entries. */
  method WeeklyBreakdown(expenses: seq<Expense>) returns (rows: seq<Entry<string>>)
    ensures |rows| <= 5
    ensures |rows| == |FirstKeys(expenses, WeekKey)|
    ensures forall i :: 0 <= i < |rows| ==> rows[i].key == FirstKeys(expenses, WeekKey)[i]
    ensures forall i :: 0 <= i < |rows| ==> rows[i].key in WeekLabels && rows[i].amount == KeyTotal(expenses, WeekKey, rows[i].key)
    ensures forall i, j :: 0 <= i < j < |rows| ==> rows[i].key != rows[j].key
    ensures SumOf(rows, EntryAmount) == Total(expenses)
  {
    var order, weeks := Accumulate(expenses, WeekKey);
    var entries := Entries(order, weeks);
    forall k | k in order ensures k in WeekLabels {
      var j :| 0 <= j < |expenses| && WeekKey(expenses[j]) == k;
      WeekKeyIsLabel(expenses[j]);
    }
    AtMostFiveLabels(order);
    EntriesSumToTotal(expenses, WeekKey, order, weeks);
    rows := FirstFive(entries);
  }

  /** What the page shows. */
  datatype View =
    | NotFound
    | Detail(category: Category, expenses: seq<Expense>, totalSpent: real, transactions: nat, weekly: seq<Entry<string>>)

  method Page(categories: Option<seq<Category>>, data: Option<seq<Expense>>, id: string) returns (v: View)
    ensures v.NotFound? <==> forall i :: 0 <= i < |Loaded(categories)| ==> Loaded(categories)[i].id != id
    ensures v.Detail? ==>
      && v.category == FindCategory(categories, id).value
      && v.category.id == id && v.category in Loaded(categories)
      && v.expenses == CategoryExpenses(data, id)
      && v.totalSpent == Total(Filter(Loaded(data), InCategory(id)))
      && v.transactions == |Filter(Loaded(data), InCategory(id))|
      && SumOf(v.weekly, EntryAmount) == v.totalSpent
      && |v.weekly| <= 5
      && |v.weekly| == |FirstKeys(v.expenses, WeekKey)|
      && (forall i :: 0 <= i < |v.weekly| ==> v.weekly[i].key == FirstKeys(v.expenses, WeekKey)[i])
      && (forall i :: 0 <= i < |v.weekly| ==> v.weekly[i].amount == KeyTotal(v.expenses, WeekKey, v.weekly[i].key))
  {
    var category := FindCategory(categories, id);
    var expenses := CategoryExpenses(data, id);
    var totalSpent := Total(expenses);
    var weekly := WeeklyBreakdown(expenses);
    TotalSpentIsCategoryTotal(data, id);
    if category.None? {
      v := NotFound;
    } else {
      v := Detail(category.value, expenses, totalSpent, |expenses|, weekly);
    }
  }
}
