/** The dashboard (src/pages/Dashboard.jsx): the spending pie, the top
    category, the five latest expenses and the three-line insight list. */
module Dashboard {
  import opened Seqs
  import opened Numbers
  import opened Store
  import opened Ranking
  import Categories

  /** One slice of the pie: a category, its amount and its colour. */
  datatype Slice = Slice(name: string, value: real, color: string)

  /** `Object.entries(categorySpending).map(...)` with the colour table's
      colour or grey. */
  function PieData(spending: seq<CategoryTotal>): (r: seq<Slice>)
    ensures |r| == |spending|
    ensures forall i :: 0 <= i < |r| ==>
              r[i] == Slice(spending[i].category, spending[i].amount, Categories.ColorOrGrey(spending[i].category))
  {
    seq(|spending|, i requires 0 <= i < |spending| =>
      Slice(spending[i].category, spending[i].amount, Categories.ColorOrGrey(spending[i].category)))
  }

  function SliceTotal(slices: seq<Slice>): real
  {
    if slices == [] then 0.0 else SliceTotal(slices[..|slices| - 1]) + slices[|slices| - 1].value
  }

  lemma {:induction false} SliceTotalIsEntriesTotal(spending: seq<CategoryTotal>)
    ensures SliceTotal(PieData(spending)) == EntriesTotal(spending)
  {
    if spending != [] {
      var init := spending[..|spending| - 1];
      SliceTotalIsEntriesTotal(init);
      assert PieData(spending)[..|spending| - 1] == PieData(init);
    }
  }

  function SliceNames(slices: seq<Slice>): seq<string>
  {
    seq(|slices|, i requires 0 <= i < |slices| => slices[i].name)
  }

  /** The pie of the month has a slice for exactly the categories spent on,
      and its slices add up to the month's expenses. */
  lemma {:induction false} PieCoversMonth(monthly: seq<ExpenseRec>)
    ensures SliceTotal(PieData(Grouped(monthly))) == Spent(monthly)
    ensures forall c :: c in SliceNames(PieData(Grouped(monthly)))
                        <==> exists i :: 0 <= i < |monthly| && monthly[i].body.category == c
  {
    GroupedFacts(monthly);
    SliceTotalIsEntriesTotal(Grouped(monthly));
    var g := Grouped(monthly);
    assert SliceNames(PieData(g)) == Keys(g);
    forall c ensures c in SliceNames(PieData(g)) <==> exists i :: 0 <= i < |monthly| && monthly[i].body.category == c {
      GroupedKeys(monthly, c);
    }
  }

  /** `sort(...)[0]`: the category spent on most, if any. */
  function TopCategory(spending: seq<CategoryTotal>): (r: Option<CategoryTotal>)
    ensures r.None? <==> spending == []
  {
    var sorted := SortDesc(spending);
    if |sorted| > 0 then Some(sorted[0]) else None
  }

  /** The top category is the first of the largest, in order of appearance. */
  lemma {:induction false} TopCategoryIsFirstMax(spending: seq<CategoryTotal>)
    requires spending != []
    ensures TopCategory(spending) == Some(spending[FirstMax(spending)])
  {
    SortDescTop(spending);
  }

  /** `expenses.slice(0, 5)`. */
  function RecentExpenses(expenses: seq<ExpenseRec>): (r: seq<ExpenseRec>)
    ensures |r| == if |expenses| < 5 then |expenses| else 5
    ensures forall i :: 0 <= i < |r| ==> r[i] == expenses[i]
  {
    Take(expenses, 5)
  }

  /** The store puts a new expense first, so it leads the recent list and
      pushes the fifth one out. */
  lemma {:induction false} RecentAfterAdd(e: ExpenseRec, expenses: seq<ExpenseRec>)
    ensures RecentExpenses([e] + expenses) == [e] + Take(expenses, 4)
  {
  }

  datatype Insight =
    | TopSpendingIs(category: string, amount: real)
    | SavingRate(rate: real)
    | OverspendingBy(amount: real)
    | TryReducing(category: string)
    | WellBalanced

  /** The insight list after `filter(Boolean)`: the top category when there
      is one; saving or overspending by the sign of the balance; and a
      reduction tip above 300 in the top category, or the all-clear. */
  function Insights(spending: seq<CategoryTotal>, totalIncome: real, balance: real): (r: seq<Insight>)
    ensures |r| == (if spending == [] then 2 else 3)
    ensures r[|r| - 2] == (if balance > 0.0 then SavingRate(ShownRate(totalIncome, balance))
                           else OverspendingBy(if balance < 0.0 then -balance else balance))
    ensures r[|r| - 1] == if TopCategory(spending).Some? && TopCategory(spending).value.amount > 300.0
                          then TryReducing(TopCategory(spending).value.category) else WellBalanced
    ensures spending != [] ==> r[0] == TopSpendingIs(TopCategory(spending).value.category,
                                                     TopCategory(spending).value.amount)
  {
    var top := TopCategory(spending);
    var first := if top.Some? then [TopSpendingIs(top.value.category, top.value.amount)] else [];
    var second := if balance > 0.0 then SavingRate(ShownRate(totalIncome, balance))
                  else OverspendingBy(if balance < 0.0 then -balance else balance);
    var third := if top.Some? && top.value.amount > 300.0 then TryReducing(top.value.category) else WellBalanced;
    first + [second, third]
  }
}
