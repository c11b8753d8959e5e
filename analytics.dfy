/** The analytics page (src/pages/Analytics.jsx): the same spending pie as
    the dashboard, a three-month trend whose first two months are fixed
    figures, and one bar per budget goal. */
module Analytics {
  import opened Text
  import opened Clock
  import opened Store
  import Categories

  datatype TrendPoint = TrendPoint(month: string, expenses: real, income: real)

  /** December and January are constants; February sums the records dated
      `2026-02`. */
  function TrendData(expenses: seq<ExpenseRec>, incomes: seq<IncomeRec>): (r: seq<TrendPoint>)
    ensures |r| == 3
    ensures r[0] == TrendPoint("Dec", 980.0, 5800.0) && r[1] == TrendPoint("Jan", 1150.0, 6000.0)
    ensures r[2].month == "Feb"
    ensures r[2].expenses == MonthTotals(expenses, incomes, "2026-02").totalExpenses
    ensures r[2].income == MonthTotals(expenses, incomes, "2026-02").totalIncome
  {
    [TrendPoint("Dec", 980.0, 5800.0),
     TrendPoint("Jan", 1150.0, 6000.0),
     TrendPoint("Feb", Spent(ExpensesIn(expenses, "2026-02")), Earned(IncomesIn(incomes, "2026-02")))]
  }

  /** The fixed tag `2026-02` is the clock's month tag in February 2026
      and in no other month. */
  lemma {:induction false} FebruaryTagIff(now: Clock)
    ensures CurrentMonthTag(now) == "2026-02" <==> now.year == 2026 && now.monthIndex == 1
  {
    assert MonthTag(2026, 2) == "2026-02" by {
      assert NatToString(2) == "2";
      assert NatToString(20) == "20";
      assert NatToString(202) == "202";
      assert NatToString(2026) == "2026";
    }
    if CurrentMonthTag(now) == "2026-02" {
      MonthTagInjective(now.year, MonthNumber(now), 2026, 2);
    }
  }

  /** In February 2026 the trend's last point shows the store's own totals
      for the month; in any other month it still shows February 2026. */
  lemma {:induction false} FebruaryIsCurrentMonth(expenses: seq<ExpenseRec>, incomes: seq<IncomeRec>, now: Clock)
    requires now.year == 2026 && now.monthIndex == 1
    ensures TrendData(expenses, incomes)[2].expenses == MonthTotals(expenses, incomes, CurrentMonthTag(now)).totalExpenses
    ensures TrendData(expenses, incomes)[2].income == MonthTotals(expenses, incomes, CurrentMonthTag(now)).totalIncome
  {
    FebruaryTagIff(now);
  }

  datatype Bar = Bar(name: string, spent: real, limit: real)

  /** One bar per goal: the category's first word, what it spent this month
      (0 without an entry), and its limit. */
  function BudgetData(goals: seq<GoalRec>, spending: seq<CategoryTotal>): (r: seq<Bar>)
    ensures |r| == |goals|
    ensures forall i :: 0 <= i < |goals| ==>
              && r[i].name == FirstWord(goals[i].body.category)
              && r[i].spent == Lookup(spending, goals[i].body.category)
              && r[i].limit == goals[i].body.limit
  {
    seq(|goals|, i requires 0 <= i < |goals| =>
      Bar(FirstWord(goals[i].body.category), Lookup(spending, goals[i].body.category), goals[i].body.limit))
  }

  /** The labels the bars of the eight categories carry. */
  const BAR_LABELS: seq<string> :=
    ["Food", "Transportation", "Entertainment", "Shopping", "Health", "Bills", "Education", "Travel"]

  /** Each category's bar is labelled with its first word: the two names
      with a space are cut before it, the others are shown whole. */
  lemma CategoryLabel(k: nat)
    requires k < |Categories.CATEGORIES|
    ensures FirstWord(Categories.CATEGORIES[k]) == BAR_LABELS[k]
  {
    var c := Categories.CATEGORIES[k];
    if k == 0 {
      assert c == "Food" + " " + "& Dining";
      FirstWordBeforeSpace("Food", "& Dining");
    } else if k == 5 {
      assert c == "Bills" + " " + "& Utilities";
      FirstWordBeforeSpace("Bills", "& Utilities");
    } else {
      assert c == BAR_LABELS[k];
      FirstWordWhole(c);
    }
  }

  /** No two categories share a bar label. */
  lemma LabelsDistinct()
    ensures |BAR_LABELS| == |Categories.CATEGORIES|
    ensures forall i, j :: 0 <= i < j < |BAR_LABELS| ==> BAR_LABELS[i] != BAR_LABELS[j]
  {
  }
}
