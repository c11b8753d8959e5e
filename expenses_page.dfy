/** The expenses page (src/pages/Expenses.jsx): the category filter, the
    add/edit dialog, and the generated insights for the current month. */
module ExpensesPage {
  import opened Seqs
  import opened Text
  import opened Numbers
  import opened Clock
  import opened Forms
  import opened Store
  import opened Ranking

  // ---- the list and its filter ----

  /** `filter === 'All' ? expenses : expenses.filter(e => e.category === filter)`. */
  function Shown(expenses: seq<ExpenseRec>, filter: string): (r: seq<ExpenseRec>)
    ensures filter == "All" ==> r == expenses
    ensures filter != "All" ==> forall i :: 0 <= i < |r| ==> r[i] in expenses && r[i].body.category == filter
    ensures filter != "All" ==> forall i :: 0 <= i < |expenses| && expenses[i].body.category == filter ==> expenses[i] in r
  {
    if filter == "All" then expenses
    else Filter(expenses, (e: ExpenseRec) => e.body.category == filter)
  }

  /** The expenses shown for one category add up to that category's total. */
  lemma {:induction false} ShownTotal(expenses: seq<ExpenseRec>, c: string)
    requires c != "All"
    ensures Spent(Shown(expenses, c)) == SpentIn(expenses, c)
  {
    if expenses != [] {
      var p := (e: ExpenseRec) => e.body.category == c;
      var init, last := expenses[..|expenses| - 1], expenses[|expenses| - 1];
      assert expenses == init + [last];
      FilterConcat(init, [last], p);
      var tail := Filter([last], p);
      SpentConcat(Filter(init, p), tail);
      ShownTotal(init, c);
      assert Spent(tail) == (if last.body.category == c then last.body.amount else 0.0) by {
        if last.body.category == c {
          assert tail == [last];
          assert [last][..0] == [];
        } else {
          assert tail == [];
        }
      }
    }
  }

  /** Filtering keeps the list's order and multiplicity: the shown list of
      a concatenation is the concatenation of the shown lists. */
  lemma {:induction false} ShownConcat(a: seq<ExpenseRec>, b: seq<ExpenseRec>, c: string)
    ensures Shown(a + b, c) == Shown(a, c) + Shown(b, c)
  {
    if c != "All" {
      FilterConcat(a, b, (e: ExpenseRec) => e.body.category == c);
    }
  }

  /** A single expense is shown once under "All" or its own category, and
      not at all otherwise. */
  lemma ShownSingle(e: ExpenseRec, c: string)
    ensures Shown([e], c) == if c == "All" || e.body.category == c then [e] else []
  {
    assert [e][1..] == [];
  }

  // ---- the add/edit dialog ----

  datatype ExpenseForm = ExpenseForm(amount: Field, category: string, date: string, note: string)

  /** The dialog's initial and reset state, dated today. */
  function BlankForm(today: string): ExpenseForm
  {
    ExpenseForm(Empty, "Food & Dining", today, "")
  }

  /** `openEdit`: the form filled from a stored expense. */
  function FormOf(e: ExpenseRec): (r: ExpenseForm)
    ensures r.amount == Entered(e.body.amount)
    ensures r.category == e.body.category && r.date == e.body.date && r.note == e.body.note
  {
    ExpenseForm(Entered(e.body.amount), e.body.category, e.body.date, e.body.note)
  }

  /** `!form.amount || !form.note`: the fields the dialog insists on. */
  predicate Complete(form: ExpenseForm)
  {
    form.amount.Entered? && form.note != ""
  }

  /** `{ ...form, amount: parseFloat(form.amount) }` as an update: every
      field of the form replaces the stored one (the amount only when one
      was entered, which the dialog's check guarantees). */
  function PatchOf(form: ExpenseForm): (r: ExpensePatch)
    ensures form.amount.Entered? ==> r.amount == Some(form.amount.value)
    ensures r.note == Some(form.note)
    ensures r.category == Some(form.category) && r.date == Some(form.date)
  {
    ExpensePatch(if form.amount.Entered? then Some(form.amount.value) else None,
                 Some(form.category), Some(form.date), Some(form.note))
  }

  /** Opening an expense and saving it unchanged writes back exactly the
      expense, provided its note is not empty; an expense without a note
      cannot be saved from the dialog at all. */
  lemma {:induction false} EditRoundTrip(e: ExpenseRec)
    ensures Complete(FormOf(e)) <==> e.body.note != ""
    ensures Complete(FormOf(e)) ==> MergeExpense(e.body, PatchOf(FormOf(e))) == e.body
  {
  }

  datatype ExpenseSubmitted = FillAllFields | ExpenseUpdated | ExpenseAdded

  /** The dialog's state: the form, the id being edited, and whether the
      dialog is open. */
  class ExpenseDialog {
    var form: ExpenseForm
    var editId: Option<Id>
    var isOpen: bool

    constructor (today: string)
      ensures form == BlankForm(today) && editId == None && !isOpen
    {
      form := BlankForm(today);
      editId := None;
      isOpen := false;
    }

    method OpenEdit(e: ExpenseRec)
      modifies this
      ensures form == FormOf(e) && editId == Some(e.id) && isOpen
    {
      editId := Some(e.id);
      form := FormOf(e);
      isOpen := true;
    }

    /** The dialog's open/close handler: closing forgets the edited id but
        keeps the form, so reopening it with the add button starts from the
        form as it was left. */
    method SetOpen(o: bool)
      modifies this
      ensures isOpen == o && form == old(form)
      ensures editId == if o then old(editId) else None
    {
      isOpen := o;
      if !o {
        editId := None;
      }
    }

    /** A change to one of the inputs. */
    method Edit(f: ExpenseForm)
      modifies this
      ensures form == f && editId == old(editId) && isOpen == old(isOpen)
    {
      form := f;
    }

    /** `handleSubmit`: an incomplete form changes nothing; otherwise the
        edited expense is updated, or a new one in the store's currency is
        added, and the dialog closes with a blank form. */
    method Submit(store: BudgetStore, today: string, freshId: Id) returns (r: ExpenseSubmitted)
      modifies this, store
      ensures !Complete(old(form)) ==>
                && r == FillAllFields
                && form == old(form) && editId == old(editId) && isOpen == old(isOpen)
                && store.expenses == old(store.expenses)
      ensures Complete(old(form)) && old(editId).Some? ==>
                && r == ExpenseUpdated
                && store.expenses == UpdatedById(old(store.expenses), old(editId).value,
                                                 (d: ExpenseData) => MergeExpense(d, PatchOf(old(form))))
      ensures Complete(old(form)) && old(editId).None? ==>
                && r == ExpenseAdded
                && store.expenses == [Rec(freshId, ExpenseData(old(form).amount.value, old(form).category,
                                                                old(form).date, old(form).note,
                                                                old(store.currency)))] + old(store.expenses)
      ensures Complete(old(form)) ==> form == BlankForm(today) && editId == None && !isOpen
      ensures store.incomes == old(store.incomes) && store.goals == old(store.goals)
      ensures store.currency == old(store.currency)
    {
      if !Complete(form) {
        return FillAllFields;
      }
      if editId.Some? {
        store.UpdateExpense(editId.value, PatchOf(form));
        r := ExpenseUpdated;
      } else {
        store.AddExpense(ExpenseData(form.amount.value, form.category, form.date, form.note, store.currency), freshId);
        r := ExpenseAdded;
      }
      isOpen := false;
      editId := None;
      form := BlankForm(today);
    }
  }

  // ---- insights ----

  datatype Insight =
    | OverBudget(category: string, spent: real, limit: real, percent: int)
    | NearingLimit(category: string, spent: real, limit: real, percent: int)
    | TopSpending(category: string, share: int, amount: real)
    | Unusual(note: string, amount: real, average: real)
    | SavingSuggestion(category: string, saving: real)
    | Projected(projected: real, slowDown: bool)

  /** The warning for one goal: over budget from 100 percent of a positive
      limit, nearing it from 80 percent; a goal whose limit is not positive
      never warns. */
  function Warning(g: GoalRec, catTotals: seq<CategoryTotal>): (r: seq<Insight>)
    ensures |r| <= 1
    ensures r != [] ==> (r[0].OverBudget? || r[0].NearingLimit?)
                        && r[0].category == g.body.category
                        && r[0].spent == Lookup(catTotals, g.body.category)
                        && r[0].limit == g.body.limit
                        && g.body.limit > 0.0
                        && r[0].percent == Round(Lookup(catTotals, g.body.category) / g.body.limit * 100.0)
    ensures (r != [] && r[0].OverBudget?) <==>
              g.body.limit > 0.0 && Lookup(catTotals, g.body.category) >= g.body.limit
    ensures (r != [] && r[0].NearingLimit?) <==>
              g.body.limit > 0.0 && 0.8 * g.body.limit <= Lookup(catTotals, g.body.category) < g.body.limit
  {
    var spent := Lookup(catTotals, g.body.category);
    var limit := g.body.limit;
    var pct := if limit > 0.0 then spent / limit * 100.0 else 0.0;
    assert limit > 0.0 ==> (pct >= 100.0 <==> spent >= limit) && (pct >= 80.0 <==> spent >= 0.8 * limit) by {
      if limit > 0.0 {
        PercentAtLeast(spent, limit, 100.0);
        PercentAtLeast(spent, limit, 80.0);
      }
    }
    if pct >= 100.0 then [OverBudget(g.body.category, spent, limit, Round(pct))]
    else if pct >= 80.0 then [NearingLimit(g.body.category, spent, limit, Round(pct))]
    else []
  }

  /** The warnings of all goals, in the goals' order. */
  function GoalWarnings(goals: seq<GoalRec>, catTotals: seq<CategoryTotal>): seq<Insight>
  {
    if goals == [] then []
    else GoalWarnings(goals[..|goals| - 1], catTotals) + Warning(goals[|goals| - 1], catTotals)
  }

  /** Some insight of the list is an over-budget warning for `c`. */
  predicate WarnsOver(ws: seq<Insight>, c: string)
  {
    exists x :: x in ws && x.OverBudget? && x.category == c
  }

  /** Some goal of `c` has a positive limit that its spending has reached. */
  predicate GoalReached(goals: seq<GoalRec>, catTotals: seq<CategoryTotal>, c: string)
  {
    exists g :: g in goals && g.body.category == c && 0.0 < g.body.limit <= Lookup(catTotals, c)
  }

  lemma {:induction false} WarnsOverConcat(a: seq<Insight>, b: seq<Insight>, c: string)
    ensures WarnsOver(a + b, c) <==> WarnsOver(a, c) || WarnsOver(b, c)
  {
    if WarnsOver(a + b, c) {
      var x: Insight :| x in a + b && x.OverBudget? && x.category == c;
      assert x in a || x in b;
    }
    if WarnsOver(a, c) {
      var x: Insight :| x in a && x.OverBudget? && x.category == c;
      assert x in a + b;
    }
    if WarnsOver(b, c) {
      var x: Insight :| x in b && x.OverBudget? && x.category == c;
      assert x in a + b;
    }
  }

  lemma {:induction false} GoalReachedSnoc(init: seq<GoalRec>, last: GoalRec, catTotals: seq<CategoryTotal>, c: string)
    ensures GoalReached(init + [last], catTotals, c) <==>
            GoalReached(init, catTotals, c) || (last.body.category == c && 0.0 < last.body.limit <= Lookup(catTotals, c))
  {
    var goals := init + [last];
    if GoalReached(goals, catTotals, c) {
      var g :| g in goals && g.body.category == c && 0.0 < g.body.limit <= Lookup(catTotals, c);
      assert g in init || g == last;
    }
    if GoalReached(init, catTotals, c) {
      var g :| g in init && g.body.category == c && 0.0 < g.body.limit <= Lookup(catTotals, c);
      assert g in goals;
    }
    assert last in goals;
  }

  /** A category gets an over-budget warning exactly when one of its goals
      has a positive limit that its spending has reached. */
  lemma {:induction false} GoalWarningsOver(goals: seq<GoalRec>, catTotals: seq<CategoryTotal>, c: string)
    ensures WarnsOver(GoalWarnings(goals, catTotals), c) <==> GoalReached(goals, catTotals, c)
  {
    if goals != [] {
      var init, last := goals[..|goals| - 1], goals[|goals| - 1];
      GoalWarningsOver(init, catTotals, c);
      assert goals == init + [last];
      var w := Warning(last, catTotals);
      assert WarnsOver(w, c) <==> last.body.category == c && 0.0 < last.body.limit <= Lookup(catTotals, c) by {
        if WarnsOver(w, c) {
          var x: Insight :| x in w && x.OverBudget? && x.category == c;
          assert x == w[0];
        }
      }
      WarnsOverConcat(GoalWarnings(init, catTotals), w, c);
      GoalReachedSnoc(init, last, catTotals, c);
    }
  }

  /** `Top Spending`: the first category of the ranking with its share of
      the month's total, as a rounded percentage (0 when the total is not
      positive). */
  function TopInsight(sorted: seq<CategoryTotal>, total: real): seq<Insight>
  {
    if sorted == [] then []
    else [TopSpending(sorted[0].category,
                      if total > 0.0 then Round(sorted[0].amount / total * 100.0) else 0,
                      sorted[0].amount)]
  }

  /** The average expense of the month, 0 when there is none. */
  function Average(monthly: seq<ExpenseRec>): real
  {
    if |monthly| > 0 then Spent(monthly) / |monthly| as real else 0.0
  }

  /** One `Unusual Expense` per expense above 2.5 times the average, in the
      list's order. */
  function Outliers(monthly: seq<ExpenseRec>, avg: real): seq<Insight>
  {
    if monthly == [] then []
    else
      var e := monthly[|monthly| - 1];
      Outliers(monthly[..|monthly| - 1], avg)
        + (if e.body.amount > avg * 2.5 then [Unusual(e.body.note, e.body.amount, avg)] else [])
  }

  /** Some expense of the list has this note and amount. */
  predicate Recorded(monthly: seq<ExpenseRec>, note: string, amount: real)
  {
    exists i :: 0 <= i < |monthly| && monthly[i].body.note == note && monthly[i].body.amount == amount
  }

  lemma {:induction false} RecordedSnoc(init: seq<ExpenseRec>, e: ExpenseRec, note: string, amount: real)
    ensures Recorded(init + [e], note, amount) <==>
            Recorded(init, note, amount) || (e.body.note == note && e.body.amount == amount)
  {
    var s := init + [e];
    if Recorded(s, note, amount) {
      var i :| 0 <= i < |s| && s[i].body.note == note && s[i].body.amount == amount;
      if i < |init| {
        assert init[i] == s[i];
      }
    }
    if Recorded(init, note, amount) {
      var i :| 0 <= i < |init| && init[i].body.note == note && init[i].body.amount == amount;
      assert s[i] == init[i];
    }
    assert s[|init|] == e;
  }

  /** The unusual-expense insights are exactly the expenses above 2.5 times
      the average. */
  lemma {:induction false} OutliersExactly(monthly: seq<ExpenseRec>, avg: real, x: Insight)
    ensures x in Outliers(monthly, avg) <==>
            x.Unusual? && x.average == avg && x.amount > avg * 2.5 && Recorded(monthly, x.note, x.amount)
  {
    if monthly != [] {
      var init, e := monthly[..|monthly| - 1], monthly[|monthly| - 1];
      OutliersExactly(init, avg, x);
      assert monthly == init + [e];
      if x.Unusual? {
        RecordedSnoc(init, e, x.note, x.amount);
      }
    }
  }

  /** `Saving Suggestion`: 15 percent of the top category, offered once
      there are at least two categories. */
  function Suggestion(sorted: seq<CategoryTotal>): seq<Insight>
  {
    if |sorted| >= 2 then [SavingSuggestion(sorted[0].category, sorted[0].amount * 0.15)] else []
  }

  /** `Projected Monthly Spend`: the daily average so far times the days of
      the month, flagged when it exceeds the total by more than 20 percent. */
  function Projection(total: real, now: Clock): seq<Insight>
  {
    if total > 0.0 then
      var projected := total / now.day as real * DaysInMonth(now.year, now.monthIndex) as real;
      [Projected(projected, projected > total * 1.2)]
    else []
  }

  /** The projection `total / d * n` exceeds `1.2 * total` exactly when
      `6 d < 5 n`, whatever the positive total. */
  lemma ProjectionExceeds(total: real, d: real, n: real)
    requires total > 0.0 && d > 0.0
    ensures total / d * n > total * 1.2 <==> 6.0 * d < 5.0 * n
  {
    var q := total / d;
    var p := q * n;
    assert q * d == total;
    assert d * p == total * n by {
      assert d * p == (q * d) * n;
    }
    ScaleOrder(d, total * 1.2, p);
    assert d * (total * 1.2) == total * (1.2 * d);
    ScaleOrder(total, 1.2 * d, n);
  }

  /** The flag does not depend on how much was spent: with any positive
      total it is raised exactly while `day * 6 < 5 * daysInMonth`, that
      is, through the first five sixths of the month. */
  lemma {:induction false} ProjectionFlag(total: real, now: Clock)
    requires total > 0.0
    ensures |Projection(total, now)| == 1
    ensures Projection(total, now)[0].slowDown <==> now.day * 6 < 5 * DaysInMonth(now.year, now.monthIndex)
  {
    var days := DaysInMonth(now.year, now.monthIndex);
    ProjectionExceeds(total, now.day as real, days as real);
    assert (now.day * 6) as real == 6.0 * now.day as real;
    assert (5 * days) as real == 5.0 * days as real;
  }

  /** All insights of the month, in the order the page lists them. */
  function InsightsOf(expenses: seq<ExpenseRec>, goals: seq<GoalRec>, now: Clock): seq<Insight>
  {
    var monthly := ExpensesIn(expenses, CurrentMonthTag(now));
    var total := Spent(monthly);
    var catTotals := Grouped(monthly);
    var sorted := SortDesc(catTotals);
    GoalWarnings(goals, catTotals) + TopInsight(sorted, total) + Outliers(monthly, Average(monthly))
      + Suggestion(sorted) + Projection(total, now)
  }

  /** The top-spending insight names the category with the largest total
      this month, the first one in order of appearance among equals, with
      that category's total. */
  lemma {:induction false} TopIsLargest(monthly: seq<ExpenseRec>)
    requires monthly != []
    ensures var catTotals := Grouped(monthly);
            var k := FirstMax(catTotals);
            && TopInsight(SortDesc(catTotals), Spent(monthly)) != []
            && TopInsight(SortDesc(catTotals), Spent(monthly))[0].category == catTotals[k].category
            && TopInsight(SortDesc(catTotals), Spent(monthly))[0].amount == SpentIn(monthly, catTotals[k].category)
  {
    var catTotals := Grouped(monthly);
    GroupedFacts(monthly);
    GroupedKeys(monthly, monthly[0].body.category);
    assert monthly[0].body.category in Keys(catTotals);
    SortDescTop(catTotals);
    var k := FirstMax(catTotals);
    LookupDistinct(catTotals, k);
  }

  /** With no negative amounts the top category's share is a percentage
      between 0 and 100. */
  lemma {:induction false} TopShareBounded(monthly: seq<ExpenseRec>)
    requires forall i :: 0 <= i < |monthly| ==> monthly[i].body.amount >= 0.0
    ensures var t := TopInsight(SortDesc(Grouped(monthly)), Spent(monthly));
            t != [] ==> 0 <= t[0].share <= 100
  {
    var catTotals := Grouped(monthly);
    var sorted := SortDesc(catTotals);
    var total := Spent(monthly);
    if sorted != [] && total > 0.0 {
      GroupedFacts(monthly);
      SortDescTop(catTotals);
      var k := FirstMax(catTotals);
      LookupDistinct(catTotals, k);
      SpentInBounds(monthly, sorted[0].category);
      PercentWithin(sorted[0].amount, total);
    }
  }

  /** A category's total lies between 0 and the month's total when no
      amount is negative. */
  lemma {:induction false} SpentInBounds(s: seq<ExpenseRec>, c: string)
    requires forall i :: 0 <= i < |s| ==> s[i].body.amount >= 0.0
    ensures 0.0 <= SpentIn(s, c) <= Spent(s)
  {
    if s != [] {
      SpentInBounds(s[..|s| - 1], c);
    }
  }

  /** The saving suggestion appears exactly when at least two categories
      were spent on this month, and it is about the top category. */
  lemma {:induction false} SuggestionNeedsTwo(monthly: seq<ExpenseRec>)
    ensures var sorted := SortDesc(Grouped(monthly));
            && (Suggestion(sorted) != [] <==> |Grouped(monthly)| >= 2)
            && (Suggestion(sorted) != [] ==>
                  Suggestion(sorted)[0].category == TopInsight(sorted, Spent(monthly))[0].category)
  {
  }

  /** The warnings loop: `budgetGoals.forEach(...)` pushing a warning per
      goal that has reached 80 percent. */
  method PushWarnings(goals: seq<GoalRec>, catTotals: seq<CategoryTotal>) returns (results: seq<Insight>)
    ensures results == GoalWarnings(goals, catTotals)
  {
    results := [];
    var i := 0;
    while i < |goals|
      invariant 0 <= i <= |goals|
      invariant results == GoalWarnings(goals[..i], catTotals)
    {
      assert goals[..i + 1][..i] == goals[..i];
      results := results + Warning(goals[i], catTotals);
      i := i + 1;
    }
    assert goals[..i] == goals;
  }

  /** The outliers loop: `outliers.forEach(...)` pushing one insight per
      expense above 2.5 times the average. */
  method PushOutliers(monthly: seq<ExpenseRec>, avg: real, results0: seq<Insight>)
    returns (results: seq<Insight>)
    ensures results == results0 + Outliers(monthly, avg)
  {
    results := results0;
    var j := 0;
    while j < |monthly|
      invariant 0 <= j <= |monthly|
      invariant results == results0 + Outliers(monthly[..j], avg)
    {
      assert monthly[..j + 1][..j] == monthly[..j];
      var e := monthly[j];
      if e.body.amount > avg * 2.5 {
        results := results + [Unusual(e.body.note, e.body.amount, avg)];
      }
      j := j + 1;
    }
    assert monthly[..j] == monthly;
  }

  /** Pushes the top-spending insight when there is a category. */
  method PushTop(sorted: seq<CategoryTotal>, total: real, results0: seq<Insight>) returns (results: seq<Insight>)
    ensures results == results0 + TopInsight(sorted, total)
  {
    results := results0;
    if |sorted| > 0 {
      var share := if total > 0.0 then Round(sorted[0].amount / total * 100.0) else 0;
      results := results + [TopSpending(sorted[0].category, share, sorted[0].amount)];
    }
  }

  /** Pushes the saving suggestion when there are two categories or more. */
  method PushSuggestion(sorted: seq<CategoryTotal>, results0: seq<Insight>) returns (results: seq<Insight>)
    ensures results == results0 + Suggestion(sorted)
  {
    results := results0;
    if |sorted| >= 2 {
      results := results + [SavingSuggestion(sorted[0].category, sorted[0].amount * 0.15)];
    }
  }

  /** Pushes the projection when something was spent. */
  method PushProjection(total: real, now: Clock, results0: seq<Insight>) returns (results: seq<Insight>)
    ensures results == results0 + Projection(total, now)
  {
    results := results0;
    if total > 0.0 {
      var projected := total / now.day as real * DaysInMonth(now.year, now.monthIndex) as real;
      results := results + [Projected(projected, projected > total * 1.2)];
    }
  }

  /** The page's computation: the month's expenses, their category totals,
      then the insights pushed one by one. */
  method Insights(expenses: seq<ExpenseRec>, goals: seq<GoalRec>, now: Clock) returns (results: seq<Insight>)
    ensures results == InsightsOf(expenses, goals, now)
  {
    var monthly := ExpensesIn(expenses, CurrentMonthTag(now));
    var total := Spent(monthly);
    var catTotals := CategorySpending(monthly);
    var sorted := SortDesc(catTotals);
    var avg := if |monthly| > 0 then total / |monthly| as real else 0.0;
    results := PushWarnings(goals, catTotals);
    results := PushTop(sorted, total, results);
    results := PushOutliers(monthly, avg, results);
    results := PushSuggestion(sorted, results);
    results := PushProjection(total, now, results);
    assert avg == Average(monthly);
  }
}
