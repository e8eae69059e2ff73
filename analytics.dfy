/** The derived data of the analytics page: spending per weekday, per month,
    per category (ranked), and the weekly report's selection and totals. */
module Analytics {
  import opened Records
  import opened Sums
  import opened Buckets
  import opened Ranking

  /** A bar of the weekly or monthly chart. */
  datatype NamedTotal = NamedTotal(name: string, total: real)

  function BarTotal(r: NamedTotal): real { r.total }

  const DayNames: seq<string> := ["Mon", "Tue", "Wed", "Thu", "Fri", "Sat", "Sun"]

  const MonthNames: seq<string> :=
    ["Jan", "Feb", "Mar", "Apr", "May", "Jun", "Jul", "Aug", "Sep", "Oct", "Nov", "Dec"]

  function WeekdayKey(e: Expense): int { e.weekday }

  function MonthKey(e: Expense): int { e.month }

  /** The `getDay()` value that bar i counts: Monday first, Sunday (0) last. */
  function BarWeekday(i: nat): Weekday
    requires i < 7
  {
    (i + 1) % 7
  }

  /** The one bar that counts expenses of weekday d. */
  function BarOf(d: Weekday): (i: nat)
    ensures i < 7 && BarWeekday(i) == d
    ensures forall j :: 0 <= j < 7 && BarWeekday(j) == d ==> j == i
    ensures d == 0 ==> i == 6
  {
    if d == 0 then 6 else d - 1
  }

  /** `weeklyData`: for each day name, the total of the expenses on that weekday
      (`?? 0` when no data is loaded). */
  function WeeklyData(data: Option<seq<Expense>>): (bars: seq<NamedTotal>)
    ensures |bars| == 7
    ensures forall i :: 0 <= i < 7 ==> bars[i].name == DayNames[i]
    ensures data.None? ==> forall i :: 0 <= i < 7 ==> bars[i].total == 0.0
  {
    seq(7, i requires 0 <= i < 7 => NamedTotal(DayNames[i], KeyTotal(Loaded(data), WeekdayKey, BarWeekday(i))))
  }

  /** `monthlyData`: for each month name, the total of the expenses in that month
      of any year. */
  function MonthlyData(data: Option<seq<Expense>>): (bars: seq<NamedTotal>)
    ensures |bars| == 12
    ensures forall i :: 0 <= i < 12 ==> bars[i].name == MonthNames[i]
    ensures data.None? ==> forall i :: 0 <= i < 12 ==> bars[i].total == 0.0
  {
    seq(12, i requires 0 <= i < 12 => NamedTotal(MonthNames[i], KeyTotal(Loaded(data), MonthKey, i)))
  }

  /** One more expense raises exactly the bar of its weekday, by its amount. */
  lemma WeeklyDataSnoc(es: seq<Expense>, e: Expense)
    ensures forall i :: 0 <= i < 7 ==>
      WeeklyData(Some(es + [e]))[i].total
        == WeeklyData(Some(es))[i].total + (if i == BarOf(e.weekday) then e.amount else 0.0)
  {
    forall i | 0 <= i < 7 {
      KeyTotalSnoc(es, e, WeekdayKey, BarWeekday(i));
    }
  }

  /** One more expense raises exactly the bar of its month, whatever its year. */
  lemma MonthlyDataSnoc(es: seq<Expense>, e: Expense)
    ensures forall i :: 0 <= i < 12 ==>
      MonthlyData(Some(es + [e]))[i].total
        == MonthlyData(Some(es))[i].total + (if i == e.month then e.amount else 0.0)
  {
    forall i | 0 <= i < 12 {
      KeyTotalSnoc(es, e, MonthKey, i);
    }
  }

  /** The seven weekday bars add up to the total of all amounts. */
  lemma WeeklyDataSumsToTotal(data: Option<seq<Expense>>)
    ensures SumOf(WeeklyData(data), BarTotal) == Total(Loaded(data))
  {
    var ks: seq<int> := [1, 2, 3, 4, 5, 6, 0];
    var bars := WeeklyData(data);
    assert forall i :: 0 <= i < 7 ==> ks[i] == BarWeekday(i);
    RowsSumToKeysTotal(bars, BarTotal, Loaded(data), WeekdayKey, ks);
    KeysTotalCovers(Loaded(data), WeekdayKey, ks);
  }

  /** The twelve month bars add up to the total of all amounts. */
  lemma MonthlyDataSumsToTotal(data: Option<seq<Expense>>)
    ensures SumOf(MonthlyData(data), BarTotal) == Total(Loaded(data))
  {
    var ks: seq<int> := [0, 1, 2, 3, 4, 5, 6, 7, 8, 9, 10, 11];
    var bars := MonthlyData(data);
    assert forall i :: 0 <= i < 12 ==> ks[i] == i;
    RowsSumToKeysTotal(bars, BarTotal, Loaded(data), MonthKey, ks);
    KeysTotalCovers(Loaded(data), MonthKey, ks);
  }

  /** A pie slice of `categoryData`; `key` is the dictionary key it was stored under. */
  datatype Slice = Slice(key: string, name: string, value: real, color: string)

  function SliceKey(s: Slice): string { s.key }

  function SliceValue(s: Slice): real { s.value }

  /** `cat?.id || 'other'` */
  function CatKey(e: Expense): string { Or(CategoryIdOf(e), "other") }

  /** `cat?.name || 'Other'` */
  function CatName(e: Expense): string { Or(CategoryNameOf(e), "Other") }

  /** `cat?.color || '#6B7280'` */
  function CatColor(e: Expense): string { Or(CategoryColorOf(e), "#6B7280") }

  /** The comparator `b.value - a.value`: larger values first. */
  function ByValueDesc(a: Slice, b: Slice): bool { a.value >= b.value }

  lemma ByValueDescIsTotalPreorder()
    ensures TotalPreorder(ByValueDesc)
  {
  }

  /** The slice the dictionary holds for key k after the expenses es: created from
      the first expense with that key, its value the key's total. */
  ghost predicate SliceFor(es: seq<Expense>, k: string, s: Slice) {
    && k in FirstKeys(es, CatKey)
    && s.key == k
    && s.value == KeyTotal(es, CatKey, k)
    && s.name == CatName(es[FirstIndex(es, CatKey, k)])
    && s.color == CatColor(es[FirstIndex(es, CatKey, k)])
  }

  ghost function KeysOf(slices: seq<Slice>): set<string> {
    set s | s in slices :: s.key
  }

  ghost function CategoryKeys(es: seq<Expense>): set<string> {
    set e | e in es :: CatKey(e)
  }

  /** An existing slice after one more expense: its value grows by the amount
      when the expense has its key; name and colour stay those of the first. */
  lemma SliceForSnoc(es: seq<Expense>, e: Expense, k: string, s: Slice)
    requires SliceFor(es, k, s)
    ensures SliceFor(es + [e], k, if CatKey(e) == k then s.(value := s.value + e.amount) else s)
  {
    var es' := es + [e];
    assert es'[..|es|] == es;
    assert FirstIndex(es', CatKey, k) == FirstIndex(es, CatKey, k);
    KeyTotalSnoc(es, e, CatKey, k);
  }

  /** The slice created for a key seen for the first time. */
  lemma SliceForNew(es: seq<Expense>, e: Expense)
    requires CatKey(e) !in FirstKeys(es, CatKey)
    ensures SliceFor(es + [e], CatKey(e), Slice(CatKey(e), CatName(e), 0.0 + e.amount, CatColor(e)))
  {
    var es' := es + [e];
    assert es'[..|es|] == es;
    assert FirstIndex(es', CatKey, CatKey(e)) == |es|;
    KeyTotalSnoc(es, e, CatKey, CatKey(e));
    KeyTotalAbsent(es, CatKey, CatKey(e));
  }

  /** The dictionary after one more expense: a new key gets a slice named and
      coloured after this expense, and the key's value grows by the amount. */
  function AbsorbSlice(m: map<string, Slice>, e: Expense): (m': map<string, Slice>)
    ensures m'.Keys == m.Keys + {CatKey(e)}
  {
    var key := CatKey(e);
    var s := if key in m then m[key] else Slice(key, CatName(e), 0.0, CatColor(e));
    m[key := s.(value := s.value + e.amount)]
  }

  /** The loop invariant of `GroupByCategory` survives one more expense: the
      dictionary's keys are still those that occur... */
  lemma AbsorbSliceKeys(prefix: seq<Expense>, e: Expense, m: map<string, Slice>)
    requires forall k :: k in m <==> k in FirstKeys(prefix, CatKey)
    ensures forall k :: k in AbsorbSlice(m, e) <==> k in FirstKeys(prefix + [e], CatKey)
  {
    FirstKeysSnoc(prefix, e, CatKey);
  }

  /** ...and every slice is still the one for its key. */
  lemma AbsorbSliceFor(prefix: seq<Expense>, e: Expense, m: map<string, Slice>)
    requires CatKey(e) !in m ==> CatKey(e) !in FirstKeys(prefix, CatKey)
    requires SlicesFor(prefix, m)
    ensures SlicesFor(prefix + [e], AbsorbSlice(m, e))
  {
    var m' := AbsorbSlice(m, e);
    forall k | k in m' ensures SliceFor(prefix + [e], k, m'[k]) {
      if k in m {
        SliceForSnoc(prefix, e, k, m[k]);
      } else {
        SliceForNew(prefix, e);
      }
    }
  }

  /** Every slice of the dictionary is the one for its key. */
  ghost predicate SlicesFor(es: seq<Expense>, m: map<string, Slice>) {
    forall k :: k in m ==> SliceFor(es, k, m[k])
  }

  /** The state of `GroupByCategory` after the expenses es: the keys in
      insertion order, and the slice for each of them. */
  ghost predicate Grouped(es: seq<Expense>, order: seq<string>, m: map<string, Slice>) {
    && order == FirstKeys(es, CatKey)
    && (forall k :: k in m <==> k in order)
    && SlicesFor(es, m)
  }

  /** One iteration of `GroupByCategory` keeps its state what it should be. */
  lemma GroupStep(prefix: seq<Expense>, e: Expense, order: seq<string>, m: map<string, Slice>)
    requires Grouped(prefix, order, m)
    ensures Grouped(prefix + [e], if CatKey(e) in m then order else order + [CatKey(e)], AbsorbSlice(m, e))
  {
    FirstKeysSnoc(prefix, e, CatKey);
    AbsorbSliceKeys(prefix, e, m);
    AbsorbSliceFor(prefix, e, m);
  }

  /** The `forEach` of `categoryData` that fills the dictionary keyed by category. */
  method GroupByCategory(es: seq<Expense>) returns (order: seq<string>, m: map<string, Slice>)
    ensures order == FirstKeys(es, CatKey)
    ensures forall k :: k in m <==> k in order
    ensures forall k :: k in m ==> SliceFor(es, k, m[k])
  {
    order, m := [], map[];
    var i := 0;
    while i < |es|
      invariant 0 <= i <= |es|
      invariant Grouped(es[..i], order, m)
    {
      var e := es[i];
      assert es[..i + 1] == es[..i] + [e];
      GroupStep(es[..i], e, order, m);
      if CatKey(e) !in m {
        order := order + [CatKey(e)];
      }
      m := AbsorbSlice(m, e);
      i := i + 1;
    }
    assert es[..i] == es;
  }

  /** `Object.values(map)`: the slices in the dictionary's key order. */
  function ValuesInOrder(order: seq<string>, m: map<string, Slice>): (values: seq<Slice>)
    requires forall k :: k in order ==> k in m
    ensures |values| == |order|
    ensures forall j :: 0 <= j < |order| ==> values[j] == m[order[j]]
  {
    seq(|order|, j requires 0 <= j < |order| => m[order[j]])
  }

  /** What the dictionary's values say before ranking. */
  lemma ValuesFacts(es: seq<Expense>, order: seq<string>, m: map<string, Slice>)
    requires order == FirstKeys(es, CatKey)
    requires forall k :: k in m <==> k in order
    requires forall k :: k in m ==> SliceFor(es, k, m[k])
    ensures forall j :: 0 <= j < |order| ==> SliceFor(es, ValuesInOrder(order, m)[j].key, ValuesInOrder(order, m)[j])
    ensures DistinctBy(ValuesInOrder(order, m), SliceKey)
    ensures SumOf(ValuesInOrder(order, m), SliceValue) == Total(es)
    ensures KeysOf(ValuesInOrder(order, m)) == CategoryKeys(es)
  {
    var values := ValuesInOrder(order, m);
    forall j | 0 <= j < |values|
      ensures SliceFor(es, values[j].key, values[j])
      ensures values[j].key == order[j] && values[j].value == KeyTotal(es, CatKey, order[j])
    {
      assert SliceFor(es, order[j], m[order[j]]);
    }
    ValuesSum(es, order, values);
    ValuesKeys(es, order, values);
  }

  lemma ValuesSum(es: seq<Expense>, order: seq<string>, values: seq<Slice>)
    requires order == FirstKeys(es, CatKey)
    requires |values| == |order|
    requires forall j :: 0 <= j < |values| ==> values[j].value == KeyTotal(es, CatKey, order[j])
    ensures SumOf(values, SliceValue) == Total(es)
  {
    RowsSumToKeysTotal(values, SliceValue, es, CatKey, order);
    KeysTotalCovers(es, CatKey, order);
  }

  lemma ValuesKeys(es: seq<Expense>, order: seq<string>, values: seq<Slice>)
    requires order == FirstKeys(es, CatKey)
    requires |values| == |order|
    requires forall j :: 0 <= j < |values| ==> values[j].key == order[j]
    ensures DistinctBy(values, SliceKey)
    ensures KeysOf(values) == CategoryKeys(es)
  {
    forall k | k in CategoryKeys(es) ensures k in KeysOf(values) {
      var e :| e in es && CatKey(e) == k;
      var j :| 0 <= j < |es| && es[j] == e;
      assert k in order;
      var p :| 0 <= p < |order| && order[p] == k;
      assert values[p].key == k;
    }
    forall k | k in KeysOf(values) ensures k in CategoryKeys(es) {
      var v :| v in values && v.key == k;
      var p :| 0 <= p < |values| && values[p] == v;
      assert order[p] == k;
      assert k in order;
      var j :| 0 <= j < |es| && CatKey(es[j]) == k;
      assert es[j] in es;
    }
  }

  /** `categoryData`: one slice per distinct category key, ranked by value. */
  method CategoryData(data: Option<seq<Expense>>) returns (slices: seq<Slice>)
    ensures |slices| == |FirstKeys(Loaded(data), CatKey)|
    ensures DistinctBy(slices, SliceKey)
    ensures KeysOf(slices) == CategoryKeys(Loaded(data))
    ensures forall i :: 0 <= i < |slices| ==> SliceFor(Loaded(data), slices[i].key, slices[i])
    ensures Sorted(slices, ByValueDesc)
    ensures SumOf(slices, SliceValue) == Total(Loaded(data))
  {
    var es := Loaded(data);
    var order, m := GroupByCategory(es);
    var values := ValuesInOrder(order, m);
    ValuesFacts(es, order, m);
    ByValueDescIsTotalPreorder();
    slices := SortBy(values, ByValueDesc);
    SortDistinctBy(values, ByValueDesc, SliceKey);
    SumOfPermutation(slices, values, SliceValue);
    SameKeysAfterPermutation(slices, values);
    SlicesStayFor(es, values, slices);
  }

  /** Reordering keeps each slice tied to its key. */
  lemma SlicesStayFor(es: seq<Expense>, values: seq<Slice>, slices: seq<Slice>)
    requires forall j :: 0 <= j < |values| ==> SliceFor(es, values[j].key, values[j])
    requires forall x :: x in slices ==> x in values
    ensures forall i :: 0 <= i < |slices| ==> SliceFor(es, slices[i].key, slices[i])
  {
    forall i | 0 <= i < |slices| ensures SliceFor(es, slices[i].key, slices[i]) {
      assert slices[i] in values;
      var j :| 0 <= j < |values| && values[j] == slices[i];
    }
  }

  lemma SameKeysAfterPermutation(a: seq<Slice>, b: seq<Slice>)
    requires multiset(a) == multiset(b)
    ensures KeysOf(a) == KeysOf(b)
    ensures forall x :: x in a <==> x in b
  {
    assert forall x :: x in a <==> x in multiset(a);
    assert forall x :: x in b <==> x in multiset(b);
  }

  /** `categoryData[0]`. */
  function TopCategory(slices: seq<Slice>): (top: Option<Slice>)
    ensures top.None? <==> slices == []
    ensures top.Some? ==> top.value == slices[0]
  {
    if slices == [] then None else Some(slices[0])
  }

  /** The analytics page's figures, computed from the loaded expenses. */
  datatype Summary = Summary(
    weekly: seq<NamedTotal>,
    monthly: seq<NamedTotal>,
    categories: seq<Slice>,
    top: Option<Slice>,
    totalSpent: real)

  method Analyze(data: Option<seq<Expense>>) returns (s: Summary)
    ensures s.weekly == WeeklyData(data) && s.monthly == MonthlyData(data)
    ensures DistinctBy(s.categories, SliceKey)
    ensures KeysOf(s.categories) == CategoryKeys(Loaded(data))
    ensures forall i :: 0 <= i < |s.categories| ==> SliceFor(Loaded(data), s.categories[i].key, s.categories[i])
    ensures Sorted(s.categories, ByValueDesc)
    ensures s.top == TopCategory(s.categories)
    ensures s.totalSpent == SumOf(s.categories, SliceValue)
    ensures s.top.None? <==> Loaded(data) == []
    ensures s.top.Some? ==> forall i :: 0 <= i < |s.categories| ==> s.top.value.value >= s.categories[i].value
    ensures s.totalSpent == Total(Loaded(data))
    ensures s.totalSpent == SumOf(s.weekly, BarTotal) == SumOf(s.monthly, BarTotal)
  {
    var slices := CategoryData(data);
    var top := TopCategory(slices);
    var totalSpent := SumOf(slices, SliceValue);
    s := Summary(WeeklyData(data), MonthlyData(data), slices, top, totalSpent);
    WeeklyDataSumsToTotal(data);
    MonthlyDataSumsToTotal(data);
  }

  /** `e.categories?.name || 'Other'`, the report's grouping key. */
  function ReportKey(e: Expense): string { Or(CategoryNameOf(e), "Other") }

  /** `new Date(e.expense_date) >= weekAgo` */
  function OnOrAfter(weekAgo: int): Expense -> bool {
    (e: Expense) => e.instant >= weekAgo
  }

  datatype Report = Report(expenses: seq<Expense>, order: seq<string>, catTotals: map<string, real>, total: real)

  /** The selection and totals of `handleDownloadPDF`; weekAgo is the instant
      seven days before now. */
  method WeeklyReport(data: Option<seq<Expense>>, weekAgo: int) returns (r: Report)
    ensures forall e :: e in r.expenses <==> e in Loaded(data) && e.instant >= weekAgo
    ensures r.expenses == Filter(Loaded(data), OnOrAfter(weekAgo))
    ensures r.order == FirstKeys(r.expenses, ReportKey)
    ensures forall k :: k in r.catTotals <==> k in r.order
    ensures forall k :: k in r.catTotals ==> r.catTotals[k] == KeyTotal(r.expenses, ReportKey, k)
    ensures r.total == Total(r.expenses)
    ensures SumOf(Entries(r.order, r.catTotals), EntryAmount) == r.total
  {
    var week := Filter(Loaded(data), OnOrAfter(weekAgo));
    var order, catTotals := Accumulate(week, ReportKey);
    var total := Total(week);
    EntriesSumToTotal(week, ReportKey, order, catTotals);
    r := Report(week, order, catTotals, total);
  }
}
