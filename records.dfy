/** The rows the pages receive from the hosted backend, with their dates already
    decoded by the browser's Date library and their amounts read as exact reals. */
module Records {

  datatype Option<+T> = None | Some(value: T)

  /** 0 is Sunday, as returned by `Date.getDay`. */
  type Weekday = d: int | 0 <= d < 7

  /** 0 is January, as returned by `Date.getMonth`. */
  type MonthIndex = m: int | 0 <= m < 12

  /** As returned by `Date.getDate`. */
  type DayOfMonth = d: int | 1 <= d <= 31 witness 1

  /** The colouring of an insight card (its `type`). */
  datatype Tone = Info | Warning | Positive | Negative

  datatype Category = Category(id: string, name: string, icon: string, color: string)

  /** An expense row joined with its category row (`select('*, categories(*)')`).
      `instant` is the time value of `new Date(date)`; the other date fields are
      what the Date getters return for it. */
  datatype Expense = Expense(
    amount: real,
    date: string,
    instant: int,
    weekday: Weekday,
    month: MonthIndex,
    year: int,
    day: DayOfMonth,
    categoryId: Option<string>,
    category: Option<Category>,
    description: string)

  datatype Income = Income(amount: real, date: string, description: string)

  /** `month` is 1-based, as the budgets table stores it. */
  datatype Budget = Budget(categoryId: string, amount: real, month: int, year: int)

  /** The JavaScript `s || fallback` on a nullable string: the fallback replaces
      a missing value and the empty string. */
  function Or(s: Option<string>, fallback: string): (r: string)
    ensures r == fallback || (s == Some(r) && r != "")
    ensures (s.Some? && s.value != "") ==> r == s.value
  {
    if s.Some? && s.value != "" then s.value else fallback
  }

  /** `query.data || []`: rows not yet loaded read as no rows. */
  function Loaded<T>(data: Option<seq<T>>): (r: seq<T>)
    ensures data.None? ==> r == []
    ensures data.Some? ==> r == data.value
  {
    if data.Some? then data.value else []
  }

  /** `Array.prototype.find`: the first element satisfying p, if any. */
  function Find<T(==)>(s: seq<T>, p: T -> bool): (r: Option<T>)
    ensures r.None? <==> forall i :: 0 <= i < |s| ==> !p(s[i])
    ensures r.Some? ==> p(r.value) && exists i :: (0 <= i < |s| && s[i] == r.value
      && forall j :: 0 <= j < i ==> !p(s[j]))
  {
    if s == [] then None
    else if p(s[0]) then
      assert s[0] == s[0];
      Some(s[0])
    else
      var r := Find(s[1..], p);
      assert forall i :: 1 <= i < |s| ==> s[i] == s[1..][i - 1];
      if r.Some? then
        var i :| 0 <= i < |s[1..]| && s[1..][i] == r.value
          && forall j :: 0 <= j < i ==> !p(s[1..][j]);
        assert s[i + 1] == r.value;
        r
      else r
  }

  /** `iso.split('T')[0]`: the text before the first 'T', the calendar date
      of an ISO timestamp. */
  function DatePart(iso: string): (r: string)
    ensures r <= iso
    ensures 'T' !in r
    ensures |r| < |iso| ==> iso[|r|] == 'T'
  {
    if iso == [] || iso[0] == 'T' then []
    else [iso[0]] + DatePart(iso[1..])
  }

  function CategoryIdOf(e: Expense): Option<string> {
    if e.category.Some? then Some(e.category.value.id) else None
  }

  function CategoryNameOf(e: Expense): Option<string> {
    if e.category.Some? then Some(e.category.value.name) else None
  }

  function CategoryColorOf(e: Expense): Option<string> {
    if e.category.Some? then Some(e.category.value.color) else None
  }

  function ExpenseAmount(e: Expense): real { e.amount }

  function IncomeAmount(i: Income): real { i.amount }

  function BudgetAmount(b: Budget): real { b.amount }
}
