/** The dashboard's figures: income and today's spending, the balance, the
    daily average and the overspending card. */
module Dashboard {
  import opened Records
  import opened Sums
  import opened Buckets

  /** The second insight card. */
  datatype StatusCard = StatusCard(title: string, description: string, tone: Tone)

  datatype Figures = Figures(
    totalIncome: real,
    totalExpenses: real,
    balance: real,
    dailyAverage: real,
    status: StatusCard)

  /** `totalExpenses > totalIncome * 0.8` */
  predicate Overspending(totalExpenses: real, totalIncome: real) {
    totalExpenses > totalIncome * 0.8
  }

  function Status(totalExpenses: real, totalIncome: real): (c: StatusCard)
    ensures Overspending(totalExpenses, totalIncome) ==>
      c.title == "Overspending!" && c.description == "You are spending too much" && c.tone == Warning
    ensures !Overspending(totalExpenses, totalIncome) ==>
      c.title == "On Track" && c.description == "Your spending is within budget" && c.tone == Positive
  {
    if Overspending(totalExpenses, totalIncome) then StatusCard("Overspending!", "You are spending too much", Warning)
    else StatusCard("On Track", "Your spending is within budget", Positive)
  }

  /** The page's figures from the income rows and today's expense rows, each
      `?? 0` while not loaded. */
  function DashboardFigures(incomeData: Option<seq<Income>>, todayData: Option<seq<Expense>>): (f: Figures)
    ensures incomeData.None? ==> f.totalIncome == 0.0
    ensures incomeData.Some? ==> f.totalIncome == IncomeTotal(incomeData.value)
    ensures todayData.None? ==> f.totalExpenses == 0.0
    ensures todayData.Some? ==> f.totalExpenses == Total(todayData.value)
    ensures f.balance == f.totalIncome - f.totalExpenses
    ensures f.dailyAverage * 7.0 == f.totalExpenses
    ensures f.status == Status(f.totalExpenses, f.totalIncome)
  {
    var totalIncome := if incomeData.Some? then IncomeTotal(incomeData.value) else 0.0;
    var totalExpenses := if todayData.Some? then Total(todayData.value) else 0.0;
    Figures(totalIncome, totalExpenses, totalIncome - totalExpenses, totalExpenses / 7.0, Status(totalExpenses, totalIncome))
  }

  /** With no income, any spending at all is overspending. */
  lemma NoIncomeOverspends(incomeData: Option<seq<Income>>, todayData: Option<seq<Expense>>)
    requires DashboardFigures(incomeData, todayData).totalIncome == 0.0
    requires DashboardFigures(incomeData, todayData).totalExpenses > 0.0
    ensures DashboardFigures(incomeData, todayData).status.title == "Overspending!"
  {
  }

  /** On track means at least a fifth of a non-negative income is left. */
  lemma OnTrackLeavesAFifth(incomeData: Option<seq<Income>>, todayData: Option<seq<Expense>>)
    requires DashboardFigures(incomeData, todayData).status.title == "On Track"
    ensures var f := DashboardFigures(incomeData, todayData);
      f.balance >= 0.2 * f.totalIncome
  {
  }

  /** The backend's selection of today's expenses (`eq('expense_date', today)`). */
  function OnDate(today: string): Expense -> bool {
    (e: Expense) => e.date == today
  }

  /** When the rows are today's selection from all expenses, an expense on
      another day leaves the spending figure unchanged, and one from today adds
      its amount. */
  lemma TodayOnly(all: seq<Expense>, e: Expense, today: string, incomeData: Option<seq<Income>>)
    ensures DashboardFigures(incomeData, Some(Filter(all + [e], OnDate(today)))).totalExpenses
      == DashboardFigures(incomeData, Some(Filter(all, OnDate(today)))).totalExpenses
         + (if e.date == today then e.amount else 0.0)
  {
    FilterSnoc(all, e, OnDate(today));
    assert OnDate(today)(e) == (e.date == today);
    var before := Filter(all, OnDate(today));
    if e.date == today {
      SumOfSnoc(before, e, ExpenseAmount);
    } else {
      assert before + [] == before;
    }
  }
}
